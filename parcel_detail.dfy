/**
 * The parcel detail page: the percent-complete figure, the five-step
 * timeline, the status update guard and button, and the colour and icon
 * lookups.
 */
module ParcelDetail {
  import opened Wrappers
  import opened Seqs
  import opened ParcelStatus

  /** `Math.round(x)`: the nearest integer, halves rounding up. */
  function JsRound(x: real): int
  {
    (x + 0.5).Floor
  }

  /**
   * `Math.round((index / (steps - 1)) * 100)`: the index is a whole number
   * of fifths, so the figure is exactly 20 times the index; Delivered shows
   * 80 and Failed 100, and a text that is not a status shows -20.
   */
  function ProgressPercent(status: string): (r: int)
    ensures r == 20 * StatusIndex(status)
    ensures Parse(status).Some? ==> 0 <= r <= 100
  {
    var k := StatusIndex(status);
    RoundWhole(20 * k);
    JsRound((k as real / 5.0) * 100.0)
  }

  lemma RoundWhole(n: int)
    ensures JsRound(n as real) == n
  {
  }

  lemma PercentOfLastSteps()
    ensures ProgressPercent(Label(Delivered)) == 80
    ensures ProgressPercent(Label(Failed)) == 100
  {
    ParseLabel(Delivered);
    ParseLabel(Failed);
  }

  predicate NotFailed(s: string)
  {
    s != "Failed"
  }

  /** The timeline: the step list without Failed, i.e. the first five steps. */
  function TimelineSteps(): (r: seq<string>)
    ensures r == Steps[..5]
  {
    TimelineIsFirstFive();
    Filter(Steps, NotFailed)
  }

  lemma TimelineIsFirstFive()
    ensures Filter(Steps, NotFailed) == Steps[..5]
  {
    forall i | 0 <= i < 5
      ensures NotFailed(Steps[..5][i])
    {
      assert |Steps[i]| != 6;
    }
    FilterDropsLast(Steps[..5], Steps[5], NotFailed);
    assert Steps == Steps[..5] + [Steps[5]];
  }

  /** Timeline step `i` is active: `i <= currentStatusIndex && status !== 'Failed'`. */
  predicate StepActive(i: int, status: string)
  {
    i <= StatusIndex(status) && status != "Failed"
  }

  /** Timeline step `i` shows a check mark: active and not the current step. */
  predicate StepChecked(i: int, status: string)
    requires 0 <= i < 5
  {
    StepActive(i, status) && !(TimelineSteps()[i] == status)
  }

  /** The check marks cover exactly the steps before the current one. */
  lemma TimelineChecks(status: string)
    ensures forall i :: 0 <= i < 5 ==> (StepChecked(i, status) <==> i < StatusIndex(status) && status != "Failed")
  {
    forall i | 0 <= i < 5
      ensures StepChecked(i, status) <==> i < StatusIndex(status) && status != "Failed"
    {
      StepChecksOne(i, status);
    }
  }

  lemma StepChecksOne(i: int, status: string)
    requires 0 <= i < 5
    ensures StepChecked(i, status) <==> i < StatusIndex(status) && status != "Failed"
  {
    assert TimelineSteps()[i] == Steps[i];
    BeforeFirst(Steps, status, i);
  }

  /** Up to the first position of `x`, only that position holds `x`. */
  lemma BeforeFirst<T>(s: seq<T>, x: T, i: int)
    requires 0 <= i < |s|
    ensures i <= IndexOf(s, x) && s[i] != x <==> i < IndexOf(s, x)
  {
    var k := IndexOf(s, x);
    if i < k {
      assert s[..k][i] == s[i];
    }
  }

  /** A failed parcel shows no active timeline step although its percent figure is 100. */
  lemma FailedTimeline()
    ensures ProgressPercent(Label(Failed)) == 100
    ensures forall i :: 0 <= i < 5 ==> !StepActive(i, Label(Failed))
  {
    PercentOfLastSteps();
  }

  /** `updateStatus` sends a request only for a non-empty choice that differs from the current status. */
  function UpdateProceeds(selected: string, current: string): (r: bool)
    ensures r <==> selected != "" && selected != current
  {
    !(selected == "" || selected == current)
  }

  /** `disabled={updatingStatus || status === parcel.status}` */
  function UpdateButtonDisabled(updating: bool, selected: string, current: string): (r: bool)
    ensures r <==> updating || selected == current
  {
    updating || selected == current
  }

  /**
   * The button and the guard disagree in one case only: an empty choice
   * against a non-empty status leaves the button enabled, but clicking it
   * does nothing.
   */
  lemma EnabledButIgnored(updating: bool, selected: string, current: string)
    ensures !UpdateButtonDisabled(updating, selected, current) && !UpdateProceeds(selected, current)
        <==> !updating && selected == "" && current != ""
  {
  }

  const DefaultGradient := "from-gray-500 to-slate-500"
  const DefaultPanel := PanelStyle("gray")

  /** The gradient table of `getStatusColor`. */
  function Gradient(s: Status): string
  {
    match s
    case Pending => "from-amber-500 to-orange-500"
    case Assigned => "from-blue-500 to-indigo-500"
    case PickedUp => "from-purple-500 to-violet-500"
    case InTransit => "from-cyan-500 to-blue-500"
    case Delivered => "from-emerald-500 to-green-500"
    case Failed => "from-red-500 to-rose-500"
  }

  /** `getStatusColor`: a gradient per status, the gray one for any other text. */
  function StatusGradient(status: string): (r: string)
    ensures r == DefaultGradient <==> Parse(status).None?
  {
    match Parse(status)
    case Some(s) =>
      GradientInjective(s, s);
      Gradient(s)
    case None => DefaultGradient
  }

  /**
   * Every entry of `getStatusBgColor` uses one Tailwind colour three times:
   * a 50 background, a 200 border and 700 text.
   */
  function PanelStyle(colour: string): string
  {
    "bg-" + colour + "-50 border-" + colour + "-200 text-" + colour + "-700"
  }

  /** The colour of each entry of `getStatusBgColor`. */
  function PanelColour(s: Status): string
  {
    match s
    case Pending => "amber"
    case Assigned => "blue"
    case PickedUp => "purple"
    case InTransit => "cyan"
    case Delivered => "emerald"
    case Failed => "red"
  }

  /** The panel table of `getStatusBgColor`. */
  function Panel(s: Status): string
  {
    PanelStyle(PanelColour(s))
  }

  /** `getStatusBgColor`: a panel style per status, the gray one for any other text. */
  function StatusPanel(status: string): (r: string)
    ensures r == DefaultPanel <==> Parse(status).None?
  {
    match Parse(status)
    case Some(s) =>
      PanelInjective(s, s);
      Panel(s)
    case None => DefaultPanel
  }

  /** Each status has its own gradient. */
  lemma GradientsDistinguishStatuses(a: Status, b: Status)
    ensures StatusGradient(Label(a)) == StatusGradient(Label(b)) ==> a == b
  {
    ParseLabel(a);
    ParseLabel(b);
    GradientInjective(a, b);
  }

  /** The colour names after "from-" start with distinct letters, none of them the 'g' of gray. */
  lemma GradientInjective(a: Status, b: Status)
    ensures Gradient(a) != DefaultGradient
    ensures Gradient(a) == Gradient(b) ==> a == b
  {
    assert Gradient(a)[5] != DefaultGradient[5];
    if Gradient(a) == Gradient(b) {
      assert Gradient(a)[5] == Gradient(b)[5];
    }
  }

  /** Each status has its own panel style. */
  lemma PanelsDistinguishStatuses(a: Status, b: Status)
    ensures StatusPanel(Label(a)) == StatusPanel(Label(b)) ==> a == b
  {
    ParseLabel(a);
    ParseLabel(b);
    PanelInjective(a, b);
  }

  /** The colour names after "bg-" start with distinct letters, none of them the 'g' of gray. */
  lemma PanelInjective(a: Status, b: Status)
    ensures Panel(a) != DefaultPanel
    ensures Panel(a) == Panel(b) ==> a == b
  {
    StyleStartsWithColour(PanelColour(a));
    StyleStartsWithColour(PanelColour(b));
    StyleStartsWithColour("gray");
  }

  /** The character after "bg-" is the colour's first letter. */
  lemma StyleStartsWithColour(colour: string)
    requires colour != ""
    ensures PanelStyle(colour)[3] == colour[0]
  {
  }

  /** `StatusIcon`: the icon of the status the text names, the Pending icon otherwise. */
  function IconFor(status: string): (r: Status)
    ensures Parse(status).Some? ==> r == Parse(status).value && Label(r) == status
    ensures Parse(status).None? ==> r == Pending
  {
    Parse(status).GetOr(Pending)
  }
}
