/** core/stats_tracker.py: the persistent player profile. A profile is a map
    from key to integer; loading merges the five defaults into whatever the
    profile file held, and committing a finished run updates the personal
    bests once per game-over, guarded by a flag that a restart resets. Reading
    and writing the file are not modelled: the parsed file contents (or None
    when the file is missing or unreadable) are an input. */
module Stats {
  import opened Common

  const HIGHEST_WAVE: string := "highest_wave"
  const TOTAL_KILLS: string := "total_kills"
  const BEST_SCORE: string := "best_score"
  const LONGEST_COMBO: string := "longest_combo"
  const GAMES_PLAYED: string := "games_played"

  /** The default keys, in the order the merge visits them. */
  const DEFAULT_KEYS: seq<string> := [HIGHEST_WAVE, TOTAL_KILLS, BEST_SCORE, LONGEST_COMBO, GAMES_PLAYED]

  const DEFAULTS: map<string, int> :=
    map[HIGHEST_WAVE := 0, TOTAL_KILLS := 0, BEST_SCORE := 0, LONGEST_COMBO := 0, GAMES_PLAYED := 0]

  /** A profile holding every one of the five default keys. */
  ghost predicate Complete(p: map<string, int>)
  {
    HIGHEST_WAVE in p && TOTAL_KILLS in p && BEST_SCORE in p && LONGEST_COMBO in p && GAMES_PLAYED in p
  }

  /** The figures of one finished run that the profile records. */
  datatype RunResult = RunResult(wave: int, kills: int, score: int, combo: int)

  /** The `setdefault` merge: every key the file held keeps its value, every
      missing default key gets its default, and nothing else is added. */
  method MergeDefaults(data: map<string, int>) returns (r: map<string, int>)
    ensures Complete(r)
    ensures forall k :: k in data ==> k in r && r[k] == data[k]
    ensures forall k :: k in r && k !in data ==> k in DEFAULTS && r[k] == DEFAULTS[k]
  {
    r := data;
    for i := 0 to |DEFAULT_KEYS|
      invariant forall j :: 0 <= j < i ==> DEFAULT_KEYS[j] in r
      invariant forall k :: k in data ==> k in r && r[k] == data[k]
      invariant forall k :: k in r && k !in data ==> k in DEFAULTS && r[k] == DEFAULTS[k]
    {
      var k := DEFAULT_KEYS[i];
      if k !in r {
        r := r[k := DEFAULTS[k]];
      }
    }
    assert DEFAULT_KEYS[0] in r && DEFAULT_KEYS[1] in r && DEFAULT_KEYS[2] in r;
    assert DEFAULT_KEYS[3] in r && DEFAULT_KEYS[4] in r;
  }

  /** The profile after committing one run: one more game, the run's kills
      added, and the three bests raised to the run's figures where larger;
      every other key is kept. */
  function Commit(p: map<string, int>, run: RunResult): (q: map<string, int>)
    requires Complete(p)
    ensures Complete(q) && q.Keys == p.Keys
    ensures q[GAMES_PLAYED] == p[GAMES_PLAYED] + 1
    ensures q[TOTAL_KILLS] == p[TOTAL_KILLS] + run.kills
    ensures q[HIGHEST_WAVE] >= p[HIGHEST_WAVE] && q[HIGHEST_WAVE] >= run.wave
    ensures q[HIGHEST_WAVE] == p[HIGHEST_WAVE] || q[HIGHEST_WAVE] == run.wave
    ensures q[BEST_SCORE] >= p[BEST_SCORE] && q[BEST_SCORE] >= run.score
    ensures q[BEST_SCORE] == p[BEST_SCORE] || q[BEST_SCORE] == run.score
    ensures q[LONGEST_COMBO] >= p[LONGEST_COMBO] && q[LONGEST_COMBO] >= run.combo
    ensures q[LONGEST_COMBO] == p[LONGEST_COMBO] || q[LONGEST_COMBO] == run.combo
    ensures forall k :: k in p && k !in DEFAULTS ==> q[k] == p[k]
  {
    p[GAMES_PLAYED := p[GAMES_PLAYED] + 1]
     [HIGHEST_WAVE := Max(p[HIGHEST_WAVE], run.wave)]
     [TOTAL_KILLS := p[TOTAL_KILLS] + run.kills]
     [BEST_SCORE := Max(p[BEST_SCORE], run.score)]
     [LONGEST_COMBO := Max(p[LONGEST_COMBO], run.combo)]
  }

  /** The profile after committing a series of runs, oldest first. */
  function CommitAll(p: map<string, int>, runs: seq<RunResult>): (q: map<string, int>)
    requires Complete(p)
    ensures Complete(q)
    decreases |runs|
  {
    if runs == [] then p else CommitAll(Commit(p, runs[0]), runs[1..])
  }

  function TotalKills(runs: seq<RunResult>): int
    decreases |runs|
  {
    if runs == [] then 0 else runs[0].kills + TotalKills(runs[1..])
  }

  /** Over any series of runs the counters add up: games played grows by the
      number of runs and total kills by the sum of their kills. */
  lemma {:induction false} CommitAllCounts(p: map<string, int>, runs: seq<RunResult>)
    requires Complete(p)
    ensures CommitAll(p, runs)[GAMES_PLAYED] == p[GAMES_PLAYED] + |runs|
    ensures CommitAll(p, runs)[TOTAL_KILLS] == p[TOTAL_KILLS] + TotalKills(runs)
    decreases |runs|
  {
    if runs != [] {
      CommitAllCounts(Commit(p, runs[0]), runs[1..]);
    }
  }

  /** Over any series of runs the bests never decrease and end at least as
      large as every run's figure. */
  lemma {:induction false} CommitAllBests(p: map<string, int>, runs: seq<RunResult>)
    requires Complete(p)
    ensures var q := CommitAll(p, runs);
      && q[HIGHEST_WAVE] >= p[HIGHEST_WAVE]
      && q[BEST_SCORE] >= p[BEST_SCORE]
      && q[LONGEST_COMBO] >= p[LONGEST_COMBO]
    ensures forall i :: 0 <= i < |runs| ==>
      && CommitAll(p, runs)[HIGHEST_WAVE] >= runs[i].wave
      && CommitAll(p, runs)[BEST_SCORE] >= runs[i].score
      && CommitAll(p, runs)[LONGEST_COMBO] >= runs[i].combo
    decreases |runs|
  {
    if runs != [] {
      var p' := Commit(p, runs[0]);
      CommitAllBests(p', runs[1..]);
      forall i | 1 <= i < |runs|
        ensures CommitAll(p, runs)[BEST_SCORE] >= runs[i].score
      {
        assert runs[i] == runs[1..][i - 1];
      }
      forall i | 1 <= i < |runs|
        ensures CommitAll(p, runs)[HIGHEST_WAVE] >= runs[i].wave
        ensures CommitAll(p, runs)[LONGEST_COMBO] >= runs[i].combo
      {
        assert runs[i] == runs[1..][i - 1];
      }
    }
  }

  /** `p` is what loading makes of the parsed profile file: the defaults
      when there is none, else the file's map with every missing default key
      added at its default. */
  ghost predicate LoadedFrom(p: map<string, int>, file: Option<map<string, int>>)
  {
    && (file.None? ==> p == DEFAULTS)
    && (file.Some? ==> forall k :: k in file.value ==> k in p && p[k] == file.value[k])
    && (file.Some? ==> forall k :: k in p && k !in file.value ==> k in DEFAULTS && p[k] == DEFAULTS[k])
  }

  class StatsTracker {
    var profile: map<string, int>
    /** Set by a commit, cleared by a restart: at most one commit per game over. */
    var committed: bool

    ghost predicate Valid()
      reads this
    {
      Complete(profile)
    }

    /** Load the profile: the file's map merged with the defaults, or the
        defaults alone when there is no readable file; the guard starts clear. */
    constructor (file: Option<map<string, int>>)
      ensures Valid() && !committed && LoadedFrom(profile, file)
    {
      var loaded := DEFAULTS;
      if file.Some? {
        loaded := MergeDefaults(file.value);
      }
      profile := loaded;
      committed := false;
    }

    /** Commit a finished run unless one was already committed since the last
        reset; a second commit leaves the profile as it was. */
    method CommitRun(run: RunResult)
      requires Valid()
      modifies this
      ensures Valid() && committed
      ensures profile == if old(committed) then old(profile) else Commit(old(profile), run)
    {
      if committed {
        return;
      }
      committed := true;
      profile := Commit(profile, run);
    }

    /** Re-arm the guard for the next game over; the profile is kept. */
    method ResetGuard()
      modifies this`committed
      ensures !committed
    {
      committed := false;
    }
  }
}
