/**
 * The parcel lifecycle statuses shared by every page, the fixed step list
 * (`PARCEL_STATUSES` / `STATUS_STEPS`), and the status lookups and
 * progress rendering that several pages repeat verbatim.
 */
module ParcelStatus {
  import opened Wrappers
  import Seqs

  datatype Status = Pending | Assigned | PickedUp | InTransit | Delivered | Failed

  /** The text the server and the pages use for each status. */
  function Label(s: Status): string
  {
    match s
    case Pending => "Pending"
    case Assigned => "Assigned"
    case PickedUp => "Picked Up"
    case InTransit => "In Transit"
    case Delivered => "Delivered"
    case Failed => "Failed"
  }

  /** The step list, in lifecycle order. */
  const Steps: seq<string> := ["Pending", "Assigned", "Picked Up", "In Transit", "Delivered", "Failed"]

  /** Position of a status in the step list. */
  function Rank(s: Status): (n: nat)
    ensures n < |Steps| && Steps[n] == Label(s)
  {
    match s
    case Pending => 0
    case Assigned => 1
    case PickedUp => 2
    case InTransit => 3
    case Delivered => 4
    case Failed => 5
  }

  /** Distinct statuses have distinct labels. */
  lemma LabelInjective(a: Status, b: Status)
    ensures Label(a) == Label(b) ==> a == b
  {
  }

  /** The status a text names, if any. */
  function Parse(text: string): (r: Option<Status>)
    ensures r.Some? ==> Label(r.value) == text
    ensures r.None? ==> forall s: Status :: Label(s) != text
  {
    if text == "Pending" then Some(Pending)
    else if text == "Assigned" then Some(Assigned)
    else if text == "Picked Up" then Some(PickedUp)
    else if text == "In Transit" then Some(InTransit)
    else if text == "Delivered" then Some(Delivered)
    else if text == "Failed" then Some(Failed)
    else None
  }

  lemma ParseLabel(s: Status)
    ensures Parse(Label(s)) == Some(s)
  {
    LabelInjective(s, Parse(Label(s)).value);
  }

  /**
   * `STEPS.indexOf(status)`: the lifecycle position of a known status and
   * -1 for any other text.
   */
  function StatusIndex(text: string): (r: int)
    ensures -1 <= r < |Steps|
    ensures r == -1 <==> Parse(text).None?
    ensures r >= 0 ==> r == Rank(Parse(text).value)
  {
    IndexIsRank(text);
    Seqs.IndexOf(Steps, text)
  }

  lemma IndexIsRank(text: string)
    ensures Seqs.IndexOf(Steps, text) >= 0 ==> Parse(text).Some? && Seqs.IndexOf(Steps, text) == Rank(Parse(text).value)
  {
    var r := Seqs.IndexOf(Steps, text);
    if r >= 0 {
      var s := Parse(text).value;
      assert Steps[Rank(s)] == text;
      if Rank(s) > r {
        LabelInjective(s, [Pending, Assigned, PickedUp, InTransit, Delivered, Failed][r]);
      }
    }
  }

  /**
   * The status badge of the admin, agent and customer dashboards: one class
   * per status, and the pending style for any text that is not a status.
   */
  function BadgeClass(status: string): (r: string)
    ensures r == "badge-pending" <==> Parse(status) == Some(Pending) || Parse(status).None?
  {
    match Parse(status)
    case Some(Pending) => "badge-pending"
    case Some(Assigned) => "badge-assigned"
    case Some(PickedUp) => "badge-picked-up"
    case Some(InTransit) => "badge-in-transit"
    case Some(Delivered) => "badge-delivered"
    case Some(Failed) => "badge-failed"
    case None => "badge-pending"
  }

  /** Every status has a badge of its own. */
  lemma BadgeClassInjective(a: Status, b: Status)
    ensures BadgeClass(Label(a)) == BadgeClass(Label(b)) ==> a == b
  {
    ParseLabel(a);
    ParseLabel(b);
  }

  datatype Tone = Good | Info | Danger | Warning | Default

  /**
   * The progress badge of the two tracking pages: a tone for Delivered,
   * In Transit, Failed and Picked Up, the default tone otherwise.
   */
  function ProgressBadge(status: string): (r: Tone)
    ensures r == Default <==> Parse(status) !in {Some(Delivered), Some(InTransit), Some(Failed), Some(PickedUp)}
    ensures r == Good <==> status == Label(Delivered)
    ensures r == Danger <==> status == Label(Failed)
    ensures r == Info <==> status == Label(InTransit)
    ensures r == Warning <==> status == Label(PickedUp)
  {
    if status == "Delivered" then Good
    else if status == "In Transit" then Info
    else if status == "Failed" then Danger
    else if status == "Picked Up" then Warning
    else Default
  }

  /**
   * Width of the tracking pages' progress line in percent:
   * index / (number of steps - 1) * 100, the divisor being 5.
   */
  function BarWidth(status: string): (w: real)
    ensures w == 20.0 * StatusIndex(status) as real
    ensures Parse(status).Some? ==> 0.0 <= w <= 100.0
    ensures Parse(status).None? ==> w < 0.0
  {
    var k := StatusIndex(status) as real;
    (k / 5.0) * 100.0
  }

  /** Step `i` of the tracking pages is highlighted: `i <= currentIdx`. */
  predicate StepReached(i: int, status: string)
  {
    i <= StatusIndex(status)
  }

  /** Step `i` of the tracking pages shows a check mark: `i < currentIdx`. */
  predicate StepPassed(i: int, status: string)
  {
    i < StatusIndex(status)
  }

  /**
   * The highlighted steps are exactly the first index+1 steps and the
   * check-marked ones the steps before the current one; a text that is not
   * a status highlights no step at all, and Failed highlights every step.
   */
  lemma {:induction false} StepsShown(status: string)
    ensures forall i :: 0 <= i < |Steps| ==> (StepReached(i, status) <==> Parse(status).Some? && i <= Rank(Parse(status).value))
    ensures forall i :: 0 <= i < |Steps| ==> (StepPassed(i, status) <==> StepReached(i, status) && Steps[i] != status)
    ensures status == Label(Failed) ==> forall i :: 0 <= i < |Steps| ==> StepReached(i, status)
  {
    if Parse(status).Some? {
      var s := Parse(status).value;
      forall i | 0 <= i < |Steps| && Steps[i] == status
        ensures i == Rank(s)
      {
        assert Steps[i] == Label(s);
      }
    }
  }
}
