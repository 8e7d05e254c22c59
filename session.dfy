/**
 * The game session of `AppComponent`: which screen is shown, the evaluation
 * state, the level, the current challenge, the two reel selections, the
 * winner flag and the two status messages, updated step by step by the
 * component's handlers.
 *
 * The callbacks the component schedules with `setTimeout` (the 800 ms wait
 * before a pair is judged, and the 2500 ms and 4500 ms steps of the win
 * sequence) are kept as a list of pending timers. Each `Fire...` method is
 * one such callback running; any pending timer may fire next, so every
 * schedule the browser can produce is one of the runs allowed here. As in
 * the component, nothing cancels a pending timer: one scheduled before a
 * reset still runs afterwards.
 */
module Session {
  import opened Wrappers
  import opened Challenge

  datatype View = Menu | Playing

  datatype GameState = Idle | Checking | Result

  /**
   * A scheduled callback: the pending check carries the values read when both
   * reels were set, the sum and the target it will compare; the two win
   * sequence steps carry nothing.
   */
  datatype Timer =
    | CheckDue(v1: int, v2: int, sum: int, target: int)
    | WinMessageDue
    | LevelUpDue

  const AwaitingMessage := "AWAITING_INPUT..."
  const ScanningMessage := "SCANNING_FOR_FRAGMENTS..."
  const RebootMessage := "SESSION_REBOOTED_LEVEL_01"
  const SyncMessage := "Sync successfully established"
  const SectorPrefix := "ACCESSING SECTOR: DATA_CORE_"

  predicate IsDigit(c: char) { '0' <= c <= '9' }

  predicate AllDigits(s: string) { forall i :: 0 <= i < |s| ==> IsDigit(s[i]) }

  function DigitChar(d: nat): (c: char)
    requires d < 10
    ensures IsDigit(c) && (c - '0') as int == d
  {
    "0123456789"[d]
  }

  /** A natural number as JavaScript's template literal prints it: decimal, no leading zero. */
  function Decimal(n: nat): (s: string)
    ensures |s| >= 1 && AllDigits(s)
    ensures |s| > 1 ==> s[0] != '0'
    ensures n < 10 <==> |s| == 1
  {
    if n < 10 then [DigitChar(n)] else Decimal(n / 10) + [DigitChar(n % 10)]
  }

  /** The number a string of decimal digits denotes (leading zeros allowed). */
  function DigitsValue(s: string): nat
    requires AllDigits(s)
  {
    if s == [] then 0 else DigitsValue(s[..|s| - 1]) * 10 + (s[|s| - 1] - '0') as int
  }

  /** Reading back a printed number gives the number. */
  lemma {:induction false} DecimalRoundTrip(n: nat)
    ensures DigitsValue(Decimal(n)) == n
  {
    if n >= 10 {
      var s := Decimal(n);
      assert s[..|s| - 1] == Decimal(n / 10);
      DecimalRoundTrip(n / 10);
    }
  }

  /** A leading zero does not change the value of a digit string. */
  lemma {:induction false} LeadingZero(s: string)
    requires AllDigits(s)
    ensures DigitsValue("0" + s) == DigitsValue(s)
  {
    if s != [] {
      var t := "0" + s;
      assert t[..|t| - 1] == "0" + s[..|s| - 1];
      LeadingZero(s[..|s| - 1]);
    }
  }

  /** The level number of the sector message, zero-padded to two digits below 10. */
  function LevelLabel(n: nat): (s: string)
    ensures AllDigits(s) && |s| >= 2
    ensures n < 10 ==> s[0] == '0' && |s| == 2
    ensures 10 <= n ==> s == Decimal(n)
  {
    (if n < 10 then "0" else "") + Decimal(n)
  }

  /** The padded label still reads back as the level; below 100 it is exactly two digits. */
  lemma LevelLabelRoundTrip(n: nat)
    ensures DigitsValue(LevelLabel(n)) == n
    ensures n < 100 ==> |LevelLabel(n)| == 2
  {
    DecimalRoundTrip(n);
    if n < 10 {
      LeadingZero(Decimal(n));
    } else if n < 100 {
      assert Decimal(n) == Decimal(n / 10) + [DigitChar(n % 10)];
    }
  }

  /**
   * The message the 2500 ms step of the win sequence shows for the coming
   * level: the digits after the prefix read back as that level, and below 10
   * they are "0" and the level's digit.
   */
  function SectorMessage(nextLevel: nat): (m: string)
    ensures |m| == |SectorPrefix| + |LevelLabel(nextLevel)|
    ensures m[..|SectorPrefix|] == SectorPrefix && m[|SectorPrefix|..] == LevelLabel(nextLevel)
    ensures AllDigits(m[|SectorPrefix|..]) && DigitsValue(m[|SectorPrefix|..]) == nextLevel
    ensures nextLevel < 10 ==> m == SectorPrefix + ['0', DigitChar(nextLevel)]
  {
    LevelLabelRoundTrip(nextLevel);
    assert nextLevel < 10 ==> Decimal(nextLevel) == [DigitChar(nextLevel)];
    SectorPrefix + LevelLabel(nextLevel)
  }

  /** Some pending check will judge a pair. */
  predicate PendingCheck(timers: seq<Timer>)
  {
    exists t :: t in timers && t.CheckDue?
  }

  class GameSession {
    var view: View
    var gameState: GameState
    var currentLevel: int
    var targetSum: int
    var numbers1: seq<int>
    var numbers2: seq<int>
    var reel1Val: Option<int>
    var reel2Val: Option<int>
    var isWinner: bool
    var aiMessage: string
    var winMessage: string
    /** The `setTimeout` callbacks scheduled and not yet run. */
    var timers: seq<Timer>

    /**
     * The session invariant: the level is at least 1; the challenge on the
     * reels is a well-formed one for the current level; a won round always
     * has its level-up step still pending; and a session in `checking` is
     * either won or has a check still to run, so it never stays there.
     */
    ghost predicate Valid()
      reads this`currentLevel, this`targetSum, this`numbers1, this`numbers2
      reads this`isWinner, this`gameState, this`timers
    {
      && currentLevel >= 1
      && WellFormed(currentLevel, Current())
      && (isWinner ==> LevelUpDue in timers)
      && (gameState == Checking ==> isWinner || PendingCheck(timers))
    }

    /** The challenge the reels show. */
    function Current(): Challenge
      reads this`targetSum, this`numbers1, this`numbers2
    {
      Challenge(targetSum, numbers1, numbers2)
    }

    /**
     * The component's construction: the field defaults, then the first
     * challenge, `c`, generated at level 1.
     */
    constructor(c: Challenge)
      requires WellFormed(1, c)
      ensures Valid()
      ensures view == Menu && currentLevel == 1 && Current() == c
      ensures gameState == Idle && reel1Val == None && reel2Val == None && !isWinner
      ensures aiMessage == ScanningMessage && winMessage == "" && timers == []
    {
      view := Menu;
      gameState := Idle;
      currentLevel := 1;
      targetSum := 0;
      numbers1 := [];
      numbers2 := [];
      reel1Val := None;
      reel2Val := None;
      isWinner := false;
      aiMessage := AwaitingMessage;
      winMessage := "";
      timers := [];
      new;
      GenerateChallenge(c);
    }

    /**
     * `generateChallenge`: the challenge `c` drawn for the current level (the
     * draws themselves are `Challenge.MakeChallenge`) goes on the reels, both
     * reel selections are cleared, the winner flag goes down, the state
     * becomes `idle` and the scanning message is shown.
     */
    method GenerateChallenge(c: Challenge)
      requires currentLevel >= 1 && WellFormed(currentLevel, c)
      modifies this`targetSum, this`numbers1, this`numbers2, this`reel1Val, this`reel2Val
      modifies this`isWinner, this`gameState, this`aiMessage
      ensures Valid()
      ensures Current() == c
      ensures reel1Val == None && reel2Val == None && !isWinner && gameState == Idle
      ensures aiMessage == ScanningMessage
    {
      targetSum := c.targetSum;
      numbers1 := c.numbers1;
      numbers2 := c.numbers2;
      reel1Val := None;
      reel2Val := None;
      isWinner := false;
      gameState := Idle;
      aiMessage := ScanningMessage;
    }

    /** `startGame`: back to level 1 with a new challenge, on the playing screen. */
    method StartGame(c: Challenge)
      requires WellFormed(1, c)
      modifies this
      ensures Valid()
      ensures currentLevel == 1 && Current() == c && view == Playing
      ensures reel1Val == None && reel2Val == None && !isWinner && gameState == Idle
      ensures aiMessage == ScanningMessage
      ensures winMessage == old(winMessage) && timers == old(timers)
    {
      currentLevel := 1;
      GenerateChallenge(c);
      view := Playing;
    }

    /** `resetGame`: back to level 1 with a new challenge; the reboot message replaces the scanning one. */
    method ResetGame(c: Challenge)
      requires WellFormed(1, c)
      modifies this
      ensures Valid()
      ensures currentLevel == 1 && Current() == c
      ensures reel1Val == None && reel2Val == None && !isWinner && gameState == Idle
      ensures aiMessage == RebootMessage
      ensures view == old(view) && winMessage == old(winMessage) && timers == old(timers)
    {
      currentLevel := 1;
      GenerateChallenge(c);
      aiMessage := RebootMessage;
    }

    /** `returnToMenu`: only the screen changes. */
    method ReturnToMenu()
      requires Valid()
      modifies this
      ensures Valid()
      ensures view == Menu
      ensures gameState == old(gameState) && currentLevel == old(currentLevel) && Current() == old(Current())
      ensures reel1Val == old(reel1Val) && reel2Val == old(reel2Val) && isWinner == old(isWinner)
      ensures aiMessage == old(aiMessage) && winMessage == old(winMessage) && timers == old(timers)
    {
      view := Menu;
    }

    /**
     * `onReelChange`: ignored once the round is won; otherwise reel 1 or (for
     * any other index) reel 2 records the value. With one reel still unset
     * the state is `idle`; with both set it is `checking` and the check is
     * scheduled with the sum and target read now.
     */
    method OnReelChange(val: int, reelIdx: int)
      requires Valid()
      modifies this
      ensures Valid()
      ensures old(isWinner) ==> unchanged(this)
      ensures !old(isWinner) ==>
        && reel1Val == (if reelIdx == 1 then Some(val) else old(reel1Val))
        && reel2Val == (if reelIdx == 1 then old(reel2Val) else Some(val))
        && (if reel1Val.Some? && reel2Val.Some? then
              && gameState == Checking
              && timers == old(timers) + [CheckDue(reel1Val.value, reel2Val.value, reel1Val.value + reel2Val.value, targetSum)]
            else
              gameState == Idle && timers == old(timers))
      ensures view == old(view) && currentLevel == old(currentLevel) && Current() == old(Current())
      ensures isWinner == old(isWinner) && aiMessage == old(aiMessage) && winMessage == old(winMessage)
    {
      if isWinner {
        return;
      }
      if reelIdx == 1 {
        reel1Val := Some(val);
      } else {
        reel2Val := Some(val);
      }
      var v1 := reel1Val;
      var v2 := reel2Val;
      if v1.Some? && v2.Some? {
        var sum := v1.value + v2.value;
        var target := targetSum;
        gameState := Checking;
        var check := CheckDue(v1.value, v2.value, sum, target);
        timers := timers + [check];
        assert check in timers;
      } else {
        gameState := Idle;
      }
    }

    /**
     * The pending check at `i` runs, 800 ms after it was scheduled: a sum
     * equal to its target starts the win sequence, any other sum sets the
     * state to `result`. It compares the values it captured, not the
     * current ones.
     */
    method FireCheck(i: nat)
      requires Valid() && i < |timers| && timers[i].CheckDue?
      modifies this
      ensures Valid()
      ensures var t := old(timers[i]);
        if t.sum == t.target then
          && isWinner && winMessage == SyncMessage && gameState == old(gameState)
          && timers == RemoveAt(old(timers), i) + [WinMessageDue, LevelUpDue]
        else
          && gameState == Result && isWinner == old(isWinner) && winMessage == old(winMessage)
          && timers == RemoveAt(old(timers), i)
      ensures view == old(view) && currentLevel == old(currentLevel) && Current() == old(Current())
      ensures reel1Val == old(reel1Val) && reel2Val == old(reel2Val) && aiMessage == old(aiMessage)
    {
      var t := timers[i];
      var rest := RemoveAt(timers, i);
      timers := rest;
      if t.sum == t.target {
        ExecuteWinSequence(t.v1, t.v2, t.target);
      } else {
        gameState := Result;
        if isWinner {
          assert LevelUpDue in multiset(old(timers));
        }
      }
    }

    /**
     * `executeWinSequence`: the round is won at once, the sync message is
     * shown, and the 2500 ms and 4500 ms steps are scheduled.
     */
    method ExecuteWinSequence(v1: int, v2: int, target: int)
      modifies this
      ensures isWinner && winMessage == SyncMessage
      ensures timers == old(timers) + [WinMessageDue, LevelUpDue]
      ensures gameState == old(gameState) && view == old(view) && currentLevel == old(currentLevel)
      ensures Current() == old(Current()) && reel1Val == old(reel1Val) && reel2Val == old(reel2Val)
      ensures aiMessage == old(aiMessage)
    {
      isWinner := true;
      winMessage := SyncMessage;
      timers := timers + [WinMessageDue, LevelUpDue];
    }

    /** The 2500 ms step: announce the next level, zero-padded below 10. */
    method FireWinMessage(i: nat)
      requires Valid() && i < |timers| && timers[i] == WinMessageDue
      modifies this
      ensures Valid()
      ensures winMessage == SectorMessage(old(currentLevel) + 1)
      ensures timers == RemoveAt(old(timers), i)
      ensures gameState == old(gameState) && view == old(view) && currentLevel == old(currentLevel)
      ensures Current() == old(Current()) && reel1Val == old(reel1Val) && reel2Val == old(reel2Val)
      ensures isWinner == old(isWinner) && aiMessage == old(aiMessage)
    {
      var nextLevel := currentLevel + 1;
      winMessage := SectorMessage(nextLevel);
      timers := RemoveAt(timers, i);
      if isWinner {
        assert LevelUpDue in multiset(old(timers));
      }
      if gameState == Checking && !isWinner {
        ghost var t :| t in old(timers) && t.CheckDue?;
        assert t in multiset(old(timers));
        assert t in timers;
      }
    }

    /** The 4500 ms step: one level up and a new challenge for it. */
    method FireLevelUp(i: nat, c: Challenge)
      requires Valid() && i < |timers| && timers[i] == LevelUpDue
      requires WellFormed(currentLevel + 1, c)
      modifies this
      ensures Valid()
      ensures currentLevel == old(currentLevel) + 1 && Current() == c
      ensures reel1Val == None && reel2Val == None && !isWinner && gameState == Idle
      ensures aiMessage == ScanningMessage
      ensures timers == RemoveAt(old(timers), i)
      ensures view == old(view) && winMessage == old(winMessage)
    {
      timers := RemoveAt(timers, i);
      currentLevel := currentLevel + 1;
      GenerateChallenge(c);
    }
  }

  /**
   * `generateChallenge`'s draws for `level`: the challenge they produce,
   * which is well formed for that level.
   */
  method DrawChallenge(level: int, d: ChallengeDraws) returns (c: Challenge)
    requires level >= 1 && DrawsInRange(d) && Generate(level, d).Some?
    ensures Generate(level, d) == Some(c) && WellFormed(level, c)
  {
    var made := MakeChallenge(level, d);
    GenerateWellFormed(level, d);
    c := made.value;
  }

  /**
   * `generateChallenge` end to end when the component is created: the draws
   * are made, and the challenge they produce is the one the reels show.
   */
  method CreateWithDraws(d: ChallengeDraws) returns (s: GameSession)
    requires DrawsInRange(d) && Generate(1, d).Some?
    ensures fresh(s) && s.Valid()
    ensures s.currentLevel == 1 && s.view == Menu && s.Current() == Generate(1, d).value
    ensures s.gameState == Idle && s.reel1Val == None && s.reel2Val == None && !s.isWinner
    ensures s.aiMessage == ScanningMessage && s.winMessage == "" && s.timers == []
  {
    var c := DrawChallenge(1, d);
    s := new GameSession(c);
  }

  /** `startGame` end to end: the level-1 draws are made and the game starts on their challenge. */
  method StartGameWithDraws(s: GameSession, d: ChallengeDraws)
    requires DrawsInRange(d) && Generate(1, d).Some?
    modifies s
    ensures s.Valid() && s.currentLevel == 1 && s.view == Playing
    ensures s.Current() == Generate(1, d).value
    ensures s.reel1Val == None && s.reel2Val == None && !s.isWinner && s.gameState == Idle
    ensures s.aiMessage == ScanningMessage
    ensures s.winMessage == old(s.winMessage) && s.timers == old(s.timers)
  {
    var c := DrawChallenge(1, d);
    s.StartGame(c);
  }

  /** `resetGame` end to end: the level-1 draws are made and the session reboots on their challenge. */
  method ResetGameWithDraws(s: GameSession, d: ChallengeDraws)
    requires DrawsInRange(d) && Generate(1, d).Some?
    modifies s
    ensures s.Valid() && s.currentLevel == 1 && s.aiMessage == RebootMessage
    ensures s.Current() == Generate(1, d).value
    ensures s.reel1Val == None && s.reel2Val == None && !s.isWinner && s.gameState == Idle
    ensures s.view == old(s.view) && s.winMessage == old(s.winMessage) && s.timers == old(s.timers)
  {
    var c := DrawChallenge(1, d);
    s.ResetGame(c);
  }

  /**
   * The 4500 ms step end to end: the draws for the next level are made and
   * the session moves to that level with the challenge they produce.
   */
  method LevelUpWithDraws(s: GameSession, i: nat, d: ChallengeDraws)
    requires s.Valid() && i < |s.timers| && s.timers[i] == LevelUpDue
    requires DrawsInRange(d) && Generate(s.currentLevel + 1, d).Some?
    modifies s
    ensures s.Valid() && s.currentLevel == old(s.currentLevel) + 1
    ensures s.Current() == Generate(old(s.currentLevel) + 1, d).value
    ensures s.reel1Val == None && s.reel2Val == None && !s.isWinner && s.gameState == Idle
    ensures s.aiMessage == ScanningMessage
    ensures s.timers == RemoveAt(old(s.timers), i)
    ensures s.view == old(s.view) && s.winMessage == old(s.winMessage)
  {
    var next := s.currentLevel + 1;
    var c := DrawChallenge(next, d);
    s.FireLevelUp(i, c);
  }
}
