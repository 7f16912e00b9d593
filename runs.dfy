/**
 * The end-of-frame bookkeeping of `run_start_screen` on the global wave number,
 * the two class-level kill counters and the `running` flag: defeat (the player
 * is destroyed), and, once all three enemy lists are empty, victory after the
 * last wave or the advance to the next wave.
 */
module Runs {
  import opened Options

  /** The last wave; clearing it is victory. */
  const LastWave := 17

  datatype RunState = RunState(wave: int, enemiesKilled: int, projectileEnemiesKilled: int, running: bool)

  /** The state at the end of a frame and the wave spawned into the lists during it, if any. */
  datatype FrameEnd = FrameEnd(state: RunState, spawned: Option<int>)

  /**
   * The defeat check: a destroyed player below wave 18 resets the counters and
   * the wave number; the run stops in any case.
   */
  function Defeat(s: RunState, destroyed: bool): (r: RunState)
    ensures r.running <==> s.running && !destroyed
    ensures !destroyed ==> r == s
    ensures destroyed && s.wave < 18 ==> r.wave == 0 && r.enemiesKilled == 0 && r.projectileEnemiesKilled == 0
    ensures destroyed && s.wave >= 18 ==> r.wave == s.wave
  {
    if !destroyed then s
    else if s.wave < 18 then RunState(0, 0, 0, false)
    else s.(running := false)
  }

  /**
   * The wave check, when all three lists are empty: after the last wave the
   * counters are reset, the wave number becomes -1 and the run stops; then, in
   * every case, the wave number goes up by one and that wave is spawned.
   */
  function Advance(s: RunState, allEmpty: bool): (r: FrameEnd)
    ensures r.spawned.Some? <==> allEmpty
    ensures r.spawned.Some? ==> r.spawned.value == r.state.wave
    ensures !allEmpty ==> r.state == s
    ensures allEmpty && s.wave != LastWave ==> r.state == s.(wave := s.wave + 1)
    ensures allEmpty && s.wave == LastWave ==> r.state == RunState(0, 0, 0, false)
  {
    if !allEmpty then FrameEnd(s, None)
    else
      var s1 := if s.wave == LastWave then RunState(-1, 0, 0, false) else s;
      var s2 := s1.(wave := s1.wave + 1);
      FrameEnd(s2, Some(s2.wave))
  }

  /** The frame as written: the wave check runs after the defeat check, whatever it did. */
  function FrameAsWritten(s: RunState, destroyed: bool, allEmpty: bool): (r: FrameEnd)
    ensures r.spawned.Some? <==> allEmpty
    ensures r.spawned.Some? ==> r.spawned.value == r.state.wave
    ensures destroyed ==> !r.state.running
    ensures destroyed && allEmpty && s.wave < 18 ==> r.state.wave == 1
  {
    Advance(Defeat(s, destroyed), allEmpty)
  }

  /** The frame with defeat ending it, so that a defeat's reset of the wave number stands. */
  function Frame(s: RunState, destroyed: bool, allEmpty: bool): (r: FrameEnd)
    ensures r.spawned.Some? <==> !destroyed && allEmpty
    ensures r.spawned.Some? ==> r.spawned.value == r.state.wave
    ensures destroyed ==> !r.state.running
    ensures destroyed && s.wave < 18 ==> r.state == RunState(0, 0, 0, false)
  {
    if destroyed then FrameEnd(Defeat(s, destroyed), None) else Advance(s, allEmpty)
  }

  /**
   * The wave a new run starts with: `run_start_screen` begins with empty lists,
   * so its first frame spawns the wave after the global wave number.
   */
  function FirstWaveOfNextRun(s: RunState): int {
    s.wave + 1
  }

  /**
   * As written, a defeat on a frame that also empties the lists (the player and
   * the last enemies die together, at wave 5 say) leaves the wave number at 1,
   * not 0: the next run then starts at wave 2 instead of wave 1.
   */
  lemma DefeatOnClearedFrameAsWritten()
    ensures FrameAsWritten(RunState(5, 4, 3, true), true, true) == FrameEnd(RunState(1, 0, 0, false), Some(1))
    ensures FirstWaveOfNextRun(FrameAsWritten(RunState(5, 4, 3, true), true, true).state) == 2
  {
  }

  /** With defeat ending the frame, a defeat always resets the run: counters and wave number at 0, nothing spawned. */
  lemma DefeatResets(s: RunState, allEmpty: bool)
    requires s.wave < 18
    ensures Frame(s, true, allEmpty) == FrameEnd(RunState(0, 0, 0, false), None)
    ensures FirstWaveOfNextRun(Frame(s, true, allEmpty).state) == 1
  {
  }

  /** Where the two frames differ: only on a defeat that coincides with empty lists. */
  lemma FramesAgreeOtherwise(s: RunState, destroyed: bool, allEmpty: bool)
    ensures Frame(s, destroyed, allEmpty) == FrameAsWritten(s, destroyed, allEmpty) <==>
      !(destroyed && allEmpty)
  {
  }

  /** Clearing a wave other than the last: the wave number goes up by exactly one and that wave is spawned. */
  lemma WaveAdvances(s: RunState)
    requires s.wave != LastWave
    ensures Frame(s, false, true) == FrameEnd(s.(wave := s.wave + 1), Some(s.wave + 1))
  {
  }

  /** Clearing the last wave: counters reset, the run stops, and the wave number ends at 0 after a spawn of wave 0. */
  lemma Victory(s: RunState)
    requires s.wave == LastWave
    ensures Frame(s, false, true) == FrameEnd(RunState(0, 0, 0, false), Some(0))
    ensures FirstWaveOfNextRun(Frame(s, false, true).state) == 1
  {
  }

  /** While enemies remain and the player lives, the frame changes nothing. */
  lemma QuietFrame(s: RunState)
    ensures Frame(s, false, false) == FrameEnd(s, None)
  {
  }

  /** The wave number stays within 0 .. 17 from frame to frame. */
  lemma WaveInRange(s: RunState, destroyed: bool, allEmpty: bool)
    requires 0 <= s.wave <= LastWave
    ensures 0 <= Frame(s, destroyed, allEmpty).state.wave <= LastWave
    ensures Frame(s, destroyed, allEmpty).spawned.Some? ==>
      0 <= Frame(s, destroyed, allEmpty).spawned.value <= LastWave
  {
  }

  /** n frames in a row in which the lists are found empty and the player survives. */
  function Clears(s: RunState, n: nat): RunState {
    if n == 0 then s else Frame(Clears(s, n - 1), false, true).state
  }

  /**
   * A run started at wave 0 that clears every wave: after n clears it stands at
   * wave n with its counters and running flag as they were, up to the last
   * wave; the clear after that is victory.
   */
  lemma {:induction false} ClearsClosedForm(s: RunState, n: nat)
    requires s.wave == 0
    ensures n <= LastWave ==> Clears(s, n) == s.(wave := n)
    ensures n == LastWave + 1 ==> Clears(s, n) == RunState(0, 0, 0, false)
  {
    if 0 < n <= LastWave {
      ClearsClosedForm(s, n - 1);
    } else if n == LastWave + 1 {
      ClearsClosedForm(s, LastWave);
    }
  }
}
