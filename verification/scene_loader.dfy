/** The boot screen shown while the 3D scene loads: the padded columns of the
    boot text, loading the scene's assets, the once-only completion of the
    boot sequence, and what is rendered at each stage. */
module SceneLoader {
  import opened Wrappers

  const Nbsp: char := '\U{00A0}'

  // ---------------------------------------------------------------- spacer

  /** `fill` written `n` times. */
  function Repeat(fill: string, n: nat): (r: string)
    ensures |r| == n * |fill|
  {
    if n == 0 then [] else Repeat(fill, n - 1) + fill
  }

  /** How many times the fill is written: the loop runs while
      `i < length - 1 - |source|`. It is the fewest rounds that bring the
      source up to `length - 1` characters. */
  function FillCount(source: string, length: int): (n: nat)
    ensures |source| + n >= length - 1
    ensures n > 0 ==> |source| + n == length - 1
  {
    if length - 1 - |source| > 0 then length - 1 - |source| else 0
  }

  /** The spacer `createSpacer` returns. */
  function Spacer(source: string, length: int, fill: string): (r: string)
    ensures |r| == 2 + FillCount(source, length) * |fill|
    ensures r[0] == Nbsp && r[|r| - 1] == Nbsp
  {
    [Nbsp] + Repeat(fill, FillCount(source, length)) + [Nbsp]
  }

  /** `createSpacer` */
  method CreateSpacer(source: string, length: int, fill: string) returns (spacer: string)
    ensures spacer == Spacer(source, length, fill)
  {
    spacer := [Nbsp];
    var i := 0;
    while i < length - 1 - |source|
      invariant 0 <= i
      invariant i <= FillCount(source, length)
      invariant spacer == [Nbsp] + Repeat(fill, i)
      decreases length - 1 - |source| - i
    {
      spacer := spacer + fill;
      i := i + 1;
    }
    spacer := spacer + [Nbsp];
  }

  /** A spacer is framed by two non-breaking spaces around the fill, and a
      one-character fill fills every position between them. */
  lemma {:induction false} SpacerShape(source: string, length: int, fill: string)
    ensures var s := Spacer(source, length, fill);
      && |s| == 2 + FillCount(source, length) * |fill|
      && s[0] == Nbsp && s[|s| - 1] == Nbsp
      && (|fill| == 1 ==> forall i | 1 <= i < |s| - 1 :: s[i] == fill[0])
  {
    if |fill| == 1 {
      var n := FillCount(source, length);
      var s := Spacer(source, length, fill);
      assert fill == [fill[0]];
      RepeatOneChar(fill[0], n);
      forall i | 1 <= i < |s| - 1
        ensures s[i] == fill[0]
      {
        assert s[i] == Repeat(fill, n)[i - 1];
      }
    }
  }

  lemma {:induction false} RepeatOneChar(c: char, n: nat)
    ensures forall i | 0 <= i < |Repeat([c], n)| :: Repeat([c], n)[i] == c
  {
    if n > 0 {
      RepeatOneChar(c, n - 1);
    }
  }

  /** With a one-character fill and a source that fits, the source and its
      spacer together always take `length + 1` characters: the columns after
      them line up. */
  lemma ColumnsAlign(source: string, length: int, fill: string)
    requires |fill| == 1 && |source| <= length - 1
    ensures |source| + |Spacer(source, length, fill)| == length + 1
  {
    SpacerShape(source, length, fill);
  }

  /** A source too long for the column gets just the two framing spaces. */
  lemma OverlongSourceGetsTwoSpaces(source: string, length: int, fill: string)
    requires |source| >= length - 1
    ensures Spacer(source, length, fill) == [Nbsp, Nbsp]
  {
  }

  const StatsName: string := "Abeih Hamani"
  const StatsCompany: string := "Hamani Labs"
  const StatsSpacer: int := 16

  /** Both lines of the system stats put their second column at position 17. */
  lemma StatsLinesAlign()
    ensures |StatsName| + |Spacer(StatsName, StatsSpacer, [Nbsp])| == 17
    ensures |StatsCompany| + |Spacer(StatsCompany, StatsSpacer, [Nbsp])| == 17
  {
    assert |StatsName| == 12 && |StatsCompany| == 11;
    ColumnsAlign(StatsName, StatsSpacer, [Nbsp]);
    ColumnsAlign(StatsCompany, StatsSpacer, [Nbsp]);
  }

  // ---------------------------------------------------------------- boot

  /** The asset manager's loading progress, as far as the boot screen reads it. */
  datatype LoadingProgress = LoadingProgress(isDoneLoading: bool)

  /** An update action produced by loading the scene; its content is not
      interpreted here. */
  datatype UpdateAction = UpdateAction(id: nat)

  /** How long completion waits before hiding anything, given the milliseconds
      since the boot screen appeared. */
  function CompletionWait(elapsed: int): (w: int)
    ensures w >= 0 && elapsed + w >= 3000
    ensures elapsed >= 3000 ==> w == 0
    ensures elapsed < 3000 ==> elapsed + w == 3000
  {
    if elapsed < 3000 then 3000 - elapsed else 0
  }

  /** What the component renders. */
  datatype View =
    | Nothing
    | WebGLError
    | Scene(progress: bool, underscore: bool, message: bool, loading: bool)

  class BootScreen {
    var loading: bool
    var showProgress: bool
    var showMessage: bool
    var showLoadingUnderscore: bool
    var hasCompletedBoot: bool
    var loadingProgress: Option<LoadingProgress>
    var supportsWebGL: Option<bool>
    var actions: seq<UpdateAction>
    /** Whether the load's abort signal has fired. */
    var aborted: bool
    /** The waits of the completions started, in order. */
    var completionWaits: seq<int>

    ghost predicate Valid()
      reads this
    {
      && |completionWaits| == (if hasCompletedBoot then 1 else 0)
      && (hasCompletedBoot ==> loadingProgress.Some?)
    }

    constructor ()
      ensures Valid()
      ensures loading && showProgress && showMessage && showLoadingUnderscore
      ensures !hasCompletedBoot && loadingProgress == None && supportsWebGL == None
      ensures actions == [] && !aborted && completionWaits == []
    {
      loading := true;
      showProgress := true;
      showMessage := true;
      showLoadingUnderscore := true;
      hasCompletedBoot := false;
      loadingProgress := None;
      supportsWebGL := None;
      actions := [];
      aborted := false;
      completionWaits := [];
    }

    /** The mount effect up to starting the load: record WebGL support and,
        when present, report the initial progress, which runs the completion
        effect as every later report does. */
    method DetectWebGL(hasWebGL: bool, initial: LoadingProgress, elapsed: int)
      requires Valid()
      modifies this`supportsWebGL, this`loadingProgress, this`hasCompletedBoot, this`completionWaits
      ensures Valid()
      ensures supportsWebGL == Some(hasWebGL)
      ensures loadingProgress == if hasWebGL then Some(initial) else old(loadingProgress)
      ensures hasCompletedBoot == (old(hasCompletedBoot) || (hasWebGL && initial.isDoneLoading))
      ensures completionWaits ==
        if hasWebGL && initial.isDoneLoading && !old(hasCompletedBoot) then [CompletionWait(elapsed)] else old(completionWaits)
    {
      supportsWebGL := Some(hasWebGL);
      if !hasWebGL {
        return;
      }
      // Setting the initial progress runs the completion effect like any other report.
      OnLoadingProgress(initial, elapsed);
    }

    /** The end of `fetchData`: the loaded actions are kept and loading ends,
        unless the load was aborted. */
    method FinishLoad(updateActions: seq<UpdateAction>)
      modifies this`actions, this`loading
      ensures !aborted ==> actions == updateActions && !loading
      ensures aborted ==> actions == old(actions) && loading == old(loading)
    {
      if !aborted {
        actions := updateActions;
        loading := false;
      }
    }

    /** The mount effect's cleanup. */
    method Unmount()
      modifies this`aborted
      ensures aborted
    {
      aborted := true;
    }

    /** A progress report followed by the completion effect: completion starts
        once, the first time the progress reports done. */
    method OnLoadingProgress(progress: LoadingProgress, elapsed: int)
      requires Valid()
      modifies this`loadingProgress, this`hasCompletedBoot, this`completionWaits
      ensures Valid()
      ensures loadingProgress == Some(progress)
      ensures hasCompletedBoot == (old(hasCompletedBoot) || progress.isDoneLoading)
      ensures completionWaits ==
        if progress.isDoneLoading && !old(hasCompletedBoot) then [CompletionWait(elapsed)] else old(completionWaits)
    {
      loadingProgress := Some(progress);
      if !progress.isDoneLoading || hasCompletedBoot {
        return;
      }
      hasCompletedBoot := true;
      completionWaits := completionWaits + [CompletionWait(elapsed)];
    }

    /** The flags once a started completion has run to its end (after its wait
        and, outside debug mode, its 100 ms and 700 ms timers). */
    method CompleteBoot(debug: bool, mobile: bool)
      requires hasCompletedBoot
      modifies this`showProgress, this`showLoadingUnderscore, this`showMessage
      ensures !showProgress && !showLoadingUnderscore
      ensures showMessage == (old(showMessage) && !debug && mobile)
    {
      if !debug {
        showProgress := false;
        showLoadingUnderscore := false;
        if !mobile {
          showMessage := false;
        }
      } else {
        showMessage := false;
        showProgress := false;
        showLoadingUnderscore := false;
      }
    }

    /** The Continue button of the welcome message. */
    method Continue()
      modifies this`showMessage
      ensures !showMessage
    {
      showMessage := false;
    }

    function Render(): (v: View)
      reads this
      ensures v == Nothing <==> supportsWebGL == None
      ensures v == WebGLError <==> supportsWebGL == Some(false)
      ensures v.Scene? ==>
        && v.progress == (showProgress && loadingProgress.Some?)
        && v.underscore == showLoadingUnderscore
        && v.message == showMessage
        && v.loading == loading
    {
      match supportsWebGL
      case None => Nothing
      case Some(false) => WebGLError
      case Some(true) => Scene(showProgress && loadingProgress.Some?, showLoadingUnderscore, showMessage, loading)
    }
  }

  /** Progress reports never start a second completion. */
  lemma CompletionOnce(b: BootScreen)
    requires b.Valid()
    ensures |b.completionWaits| <= 1
  {
  }
}
