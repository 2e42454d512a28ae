/**
 * The `ThreatMonitor` view: the severity band and icon of a threat, its type label,
 * its status badge and resolve action, and the choice between the loading skeleton,
 * the "All Clear" card and one card per threat.
 */
module ThreatMonitor {
  import opened Js
  import opened Schema

  const DestructiveFrom := 8
  const SecondaryFrom := 5

  datatype Variant = Default | Secondary | Destructive
  datatype Icon = CheckCircle | ShieldIcon | AlertTriangle

  /** A nullable `severity_level` as the `>=` comparisons see it: null compares as 0. */
  function Level(severity: Option<int>): int {
    severity.GetOr(0)
  }

  /** `getSeverityColor`. */
  function SeverityColor(severity: Option<int>): (v: Variant)
    ensures v == Destructive <==> Level(severity) >= DestructiveFrom
    ensures v == Secondary <==> SecondaryFrom <= Level(severity) < DestructiveFrom
    ensures v == Default <==> Level(severity) < SecondaryFrom
  {
    var level := Level(severity);
    if level >= DestructiveFrom then Destructive
    else if level >= SecondaryFrom then Secondary
    else Default
  }

  /** `getSeverityIcon`. */
  function SeverityIcon(severity: Option<int>): (i: Icon)
    ensures i == AlertTriangle <==> Level(severity) >= DestructiveFrom
    ensures i == ShieldIcon <==> SecondaryFrom <= Level(severity) < DestructiveFrom
    ensures i == CheckCircle <==> Level(severity) < SecondaryFrom
  {
    var level := Level(severity);
    if level >= DestructiveFrom then AlertTriangle
    else if level >= SecondaryFrom then ShieldIcon
    else CheckCircle
  }

  /** The icon that goes with each colour band. */
  function BandIcon(v: Variant): Icon {
    match v
    case Destructive => AlertTriangle
    case Secondary => ShieldIcon
    case Default => CheckCircle
  }

  /** How alarming a band is. */
  function Rank(v: Variant): (r: nat)
    ensures r <= 2
  {
    match v
    case Default => 0
    case Secondary => 1
    case Destructive => 2
  }

  /** Icon and colour use the same thresholds, so they always agree. */
  lemma IconMatchesColor(severity: Option<int>)
    ensures SeverityIcon(severity) == BandIcon(SeverityColor(severity))
  {
  }

  /** A higher severity never gets a milder band. */
  lemma BandMonotone(a: Option<int>, b: Option<int>)
    requires Level(a) <= Level(b)
    ensures Rank(SeverityColor(a)) <= Rank(SeverityColor(b))
  {
  }

  /** The status badge: destructive exactly for an active threat. */
  function StatusBadge(status: Option<ThreatStatus>): (v: Variant)
    ensures v == Destructive <==> status == Some(Active)
    ensures v != Destructive ==> v == Default
  {
    if status == Some(Active) then Destructive else Default
  }

  /** "Mark as Resolved" is offered exactly for an active threat. */
  predicate OffersResolve(status: Option<ThreatStatus>) {
    status == Some(Active)
  }

  /** The pattern and the replacement of the label's `replace`. */
  const Underscore := '_'
  const Space := ' '

  /**
   * `threat_type.replace('_', ' ')` on the stored label: only the first underscore
   * becomes a space, so none is left exactly when there was at most one.
   */
  function TypeLabel(threatType: string): (text: string)
    ensures |text| == |threatType|
  {
    ReplaceFirstChar(threatType, Underscore, Space)
  }

  /** A stored name with at most one underscore is shown without any. */
  lemma TypeLabelClears(threatType: string)
    requires AtMostOnce(threatType, Underscore)
    ensures Underscore !in TypeLabel(threatType)
  {
    ReplaceFirstClearsSingle(threatType, Underscore, Space);
  }

  /** A second underscore survives: the label of `a_b_c` still contains one. */
  lemma SecondUnderscoreSurvives()
    ensures Underscore in TypeLabel("a_b_c")
  {
    assert "a_b_c"[1..] == "_b_c";
    assert TypeLabel("a_b_c") == "a" + " b_c";
    assert ("a" + " b_c")[3] == Underscore;
  }

  /** In `head + "_" + tail` with no underscore in `head`, the replaced one is the one after `head`. */
  lemma {:induction false} FirstUnderscore(head: string, tail: string)
    requires Underscore !in head
    ensures TypeLabel(head + [Underscore] + tail) == head + [Space] + tail
    decreases |head|
  {
    var name := head + [Underscore] + tail;
    if head == [] {
      assert name == [Underscore] + tail;
      assert name[1..] == tail;
    } else {
      assert name[0] == head[0];
      FirstUnderscore(head[1..], tail);
      assert name[1..] == head[1..] + [Underscore] + tail;
      assert head + [Space] + tail == [head[0]] + (head[1..] + [Space] + tail);
    }
  }

  /** A name of two underscore-free words joined by one underscore has just that one. */
  lemma TwoWords(head: string, tail: string)
    requires Underscore !in head && Underscore !in tail
    ensures AtMostOnce(head + [Underscore] + tail, Underscore)
  {
    var name := head + [Underscore] + tail;
    forall i, j | 0 <= i < j < |name| && name[i] == Underscore ensures name[j] != Underscore {
      assert name[j] == tail[j - |head| - 1];
    }
  }

  /** Every `threat_type` label has at most one underscore, so its displayed label has none. */
  lemma EnumLabelsClean(t: ThreatType)
    ensures AtMostOnce(ThreatTypeName(t), Underscore)
  {
    match t
    case Malware =>
    case Phishing =>
    case SuspiciousActivity =>
      TwoWords("suspicious", "activity");
      assert ThreatTypeName(t) == "suspicious" + [Underscore] + "activity";
    case NetworkAnomaly =>
      TwoWords("network", "anomaly");
      assert ThreatTypeName(t) == "network" + [Underscore] + "anomaly";
  }

  // ---------------------------------------------------------------------------
  // The rendered list

  datatype Card = Card(
    id: string,
    icon: Icon,
    typeLabel: string,
    severityBadge: Variant,
    statusBadge: Variant,
    resolvable: bool)

  datatype View = Skeleton | AllClear | Cards(cards: seq<Card>)

  function CardOf(t: ThreatRow): (c: Card)
    ensures Underscore !in c.typeLabel
  {
    EnumLabelsClean(t.threatType);
    TypeLabelClears(ThreatTypeName(t.threatType));
    Card(t.id, SeverityIcon(t.severityLevel), TypeLabel(ThreatTypeName(t.threatType)), SeverityColor(t.severityLevel),
         StatusBadge(t.status), OffersResolve(t.status))
  }

  function Render(loading: bool, threats: seq<ThreatRow>): (v: View)
    ensures loading <==> v.Skeleton?
    ensures v.AllClear? <==> !loading && threats == []
    ensures v.Cards? ==> |v.cards| == |threats| > 0
    ensures v.Cards? ==> forall i :: 0 <= i < |threats| ==>
      && v.cards[i].id == threats[i].id
      && v.cards[i].severityBadge == SeverityColor(threats[i].severityLevel)
      && v.cards[i].icon == SeverityIcon(threats[i].severityLevel)
      && v.cards[i].icon == BandIcon(v.cards[i].severityBadge)
      && v.cards[i].typeLabel == TypeLabel(ThreatTypeName(threats[i].threatType))
      && (v.cards[i].resolvable <==> threats[i].status == Some(Active))
      && (v.cards[i].statusBadge == Destructive <==> v.cards[i].resolvable)
      && Underscore !in v.cards[i].typeLabel
  {
    if loading then Skeleton
    else if threats == [] then AllClear
    else Cards(seq(|threats|, i requires 0 <= i < |threats| => CardOf(threats[i])))
  }
}
