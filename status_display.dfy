/** How a shipment status is shown: the label formatter shared by the
    shipment lists (split on a separator, capitalise each piece, join with a
    space) and the two badge-colour switches. */
module StatusDisplay {
  import opened Text
  import Schema

  /** formatStatusLabel: status.split(sep), each piece capitalised,
      joined with a space. ShipmentTable splits on '-', the shipments page
      and the dashboard list split on '_'. The label is as long as the
      status: each separator gives way to one space. */
  function FormatStatusLabel(status: string, sep: char): (r: string)
    ensures |r| == |status|
  {
    var pieces := Split(status, sep);
    JoinSplit(status, sep);
    JoinSameLength(CapitalizeAll(pieces), pieces, " ", [sep]);
    Join(CapitalizeAll(pieces), " ")
  }

  /** The character the label shows at position i, read off the status
      alone: a separator becomes a space, the first character of each piece
      is upper-cased, every other character is kept. */
  function LabelChar(status: string, sep: char, i: int): char
    requires 0 <= i < |status|
  {
    if status[i] == sep then ' '
    else if i == 0 || status[i - 1] == sep then UpperChar(status[i])
    else status[i]
  }

  lemma JoinCons(a: string, rest: seq<string>, d: string)
    ensures Join([a] + rest, d) == a + (if rest == [] then [] else d + Join(rest, d))
  {
    assert ([a] + rest)[1..] == rest;
  }

  /** What the label holds after its first piece. */
  function LabelAfterFirst(others: seq<string>): string {
    if others == [] then [] else " " + Join(CapitalizeAll(others), " ")
  }

  /** A status starting with the separator: its label is a space followed
      by the label of the rest. */
  lemma LabelOfLeadingSeparator(s: string, sep: char)
    requires s != [] && s[0] == sep
    ensures FormatStatusLabel(s, sep) == " " + FormatStatusLabel(s[1..], sep)
  {
    var rest := Split(s[1..], sep);
    assert Split(s, sep) == [[]] + rest;
    assert CapitalizeAll([[]] + rest) == [[]] + CapitalizeAll(rest);
    JoinCons([], CapitalizeAll(rest), " ");
  }

  /** A status starting with another character c: that character joins the
      first piece of the rest, so the label is c upper-cased, then that piece
      as it stands, then what follows the first piece in the rest's label. */
  lemma LabelOfLeadingChar(s: string, sep: char)
    requires s != [] && s[0] != sep
    ensures var rest := Split(s[1..], sep);
      && FormatStatusLabel(s, sep) == [UpperChar(s[0])] + rest[0] + LabelAfterFirst(rest[1..])
      && FormatStatusLabel(s[1..], sep) == Capitalize(rest[0]) + LabelAfterFirst(rest[1..])
  {
    var rest := Split(s[1..], sep);
    var w0, others := rest[0], rest[1..];
    assert rest == [w0] + others;
    assert Split(s, sep) == [[s[0]] + w0] + others;
    assert CapitalizeAll([[s[0]] + w0] + others) == [Capitalize([s[0]] + w0)] + CapitalizeAll(others);
    assert CapitalizeAll(rest) == [Capitalize(w0)] + CapitalizeAll(others);
    JoinCons(Capitalize([s[0]] + w0), CapitalizeAll(others), " ");
    JoinCons(Capitalize(w0), CapitalizeAll(others), " ");
  }

  /** The label of s has the length of s and agrees with LabelChar at every
      position. */
  ghost predicate LabelAgrees(s: string, sep: char) {
    |FormatStatusLabel(s, sep)| == |s|
    && forall i :: 0 <= i < |s| ==> FormatStatusLabel(s, sep)[i] == LabelChar(s, sep, i)
  }

  /** The label has the length of the status and agrees with LabelChar at
      every position. */
  lemma {:induction false} FormatStatusLabelAt(status: string, sep: char)
    ensures |FormatStatusLabel(status, sep)| == |status|
    ensures forall i :: 0 <= i < |status| ==> FormatStatusLabel(status, sep)[i] == LabelChar(status, sep, i)
    decreases |status|
  {
    if status != [] {
      FormatStatusLabelAt(status[1..], sep);
      if status[0] == sep {
        LabelAgreesAfterSeparator(status, sep);
      } else {
        LabelAgreesAfterChar(status, sep);
      }
    }
  }

  /** The induction step for a status that starts with the separator. */
  lemma LabelAgreesAfterSeparator(s: string, sep: char)
    requires s != [] && s[0] == sep && LabelAgrees(s[1..], sep)
    ensures LabelAgrees(s, sep)
  {
    var s' := s[1..];
    var shown', shown := FormatStatusLabel(s', sep), FormatStatusLabel(s, sep);
    LabelOfLeadingSeparator(s, sep);
    forall i | 1 <= i < |s|
      ensures shown[i] == LabelChar(s, sep, i)
    {
      assert shown[i] == shown'[i - 1];
    }
  }

  /** The induction step for a status that starts with another character. */
  lemma LabelAgreesAfterChar(s: string, sep: char)
    requires s != [] && s[0] != sep && LabelAgrees(s[1..], sep)
    ensures LabelAgrees(s, sep)
  {
    var rest := Split(s[1..], sep);
    LabelOfLeadingChar(s, sep);
    var w0, tail := rest[0], LabelAfterFirst(rest[1..]);
    LeadingCharStep(s, sep, w0, tail, FormatStatusLabel(s[1..], sep));
  }

  /** The label of s from the label of s[1..] when s[0] is not the
      separator: s[0], upper-cased, joins the first piece w0 of s[1..],
      whose own first character is no longer upper-cased. */
  lemma LeadingCharStep(s: string, sep: char, w0: string, tail: string, shown': string)
    requires s != [] && s[0] != sep && IsPrefix(w0, s[1..]) && sep !in w0
    requires |s| > 1 && s[1] != sep ==> |w0| > 0
    requires shown' == Capitalize(w0) + tail && |shown'| == |s| - 1
    requires forall i :: 0 <= i < |s| - 1 ==> shown'[i] == LabelChar(s[1..], sep, i)
    ensures var shown := [UpperChar(s[0])] + w0 + tail;
      |shown| == |s| && forall i :: 0 <= i < |s| ==> shown[i] == LabelChar(s, sep, i)
  {
    var shown := [UpperChar(s[0])] + w0 + tail;
    forall i | 1 <= i < |s|
      ensures shown[i] == LabelChar(s, sep, i)
    {
      if i - 1 < |w0| {
        assert shown[i] == w0[i - 1] == s[i];
        if i >= 2 {
          assert w0[i - 2] == s[i - 1];
        }
      } else {
        assert shown[i] == shown'[i - 1] == LabelChar(s[1..], sep, i - 1);
        assert s[1..][i - 1] == s[i];
        if i >= 2 {
          assert s[1..][i - 2] == s[i - 1];
        }
      }
    }
  }

  const GreenBadge := "bg-green-100 text-green-800"
  const YellowBadge := "bg-yellow-100 text-yellow-800"
  const RedBadge := "bg-red-100 text-red-800"
  const BlueBadge := "bg-blue-100 text-blue-800"
  const GrayBadge := "bg-gray-100 text-gray-800"

  /** getStatusBadgeClass of ShipmentTable, over the store's hyphenated
      statuses: each of the four known statuses has its own colour and
      anything else is gray. */
  function StatusBadgeClass(status: string): (r: string)
    ensures status == "on-time" ==> r == GreenBadge
    ensures status == "in-transit" ==> r == YellowBadge
    ensures status == "delayed" ==> r == RedBadge
    ensures status == "delivered" ==> r == BlueBadge
    ensures r == GrayBadge <==> status !in {"on-time", "in-transit", "delayed", "delivered"}
  {
    match status
    case "on-time" => GreenBadge
    case "in-transit" => YellowBadge
    case "delayed" => RedBadge
    case "delivered" => BlueBadge
    case _ => GrayBadge
  }

  /** getStatusBadgeStyles of the shipments page and the dashboard list,
      over the ShipmentStatus values: each of the four has its own colour and
      anything else is gray. */
  function StatusBadgeStyles(status: string): (r: string)
    ensures status == Schema.Delivered ==> r == GreenBadge
    ensures status == Schema.InTransit ==> r == YellowBadge
    ensures status == Schema.Delayed ==> r == RedBadge
    ensures status == Schema.Processing ==> r == BlueBadge
    ensures r == GrayBadge <==> status !in {Schema.Delivered, Schema.InTransit, Schema.Delayed, Schema.Processing}
  {
    if status == Schema.Delivered then GreenBadge
    else if status == Schema.InTransit then YellowBadge
    else if status == Schema.Delayed then RedBadge
    else if status == Schema.Processing then BlueBadge
    else GrayBadge
  }

  /** Example: with either separator, the status "in transit" is shown as
      "In Transit". */
  lemma FormatStatusLabelExample(status: string, sep: char)
    requires sep in "-_" && status == "in" + [sep] + "transit"
    ensures FormatStatusLabel(status, sep) == "In Transit"
  {
    FormatStatusLabelAt(status, sep);
  }

  /** The store writes hyphenated statuses such as "in-transit" and
      "on-time"; the pages that split on '_' and switch over ShipmentStatus
      show such a status as one capitalised piece with a gray badge. */
  lemma HyphenatedStatusOnUnderscorePages(status: string)
    requires status == "in-transit"
    ensures FormatStatusLabel(status, '_') == "In-transit"
    ensures StatusBadgeStyles(status) == GrayBadge
    ensures StatusBadgeStyles("on-time") == GrayBadge
  {
    FormatStatusLabelAt(status, '_');
  }
}
