/** The text keys of the learned-state file: node ids in decimal, and directed edges written "a->b". */
module StateKeys {
  import opened Network

  function NatText(n: nat): (t: string)
    ensures |t| > 0
  {
    var digit := ('0' as int + n % 10) as char;
    if n < 10 then [digit] else NatText(n / 10) + [digit]
  }

  function IntText(i: int): string {
    if i < 0 then "-" + NatText(-i) else NatText(i)
  }

  function EdgeText(a: NodeId, b: NodeId): string {
    IntText(a) + "->" + IntText(b)
  }

  /** Decimal digits, with single underscores between them where the writer likes. */
  function ParseNat(t: string): Option<nat> {
    if |t| == 0 || !('0' <= t[|t| - 1] <= '9') then None
    else
      var d := t[|t| - 1] as int - '0' as int;
      if |t| == 1 then Some(d)
      else
        var front := if t[|t| - 2] == '_' then t[..|t| - 2] else t[..|t| - 1];
        match ParseNat(front) case None => None case Some(n) => Some(10 * n + d)
  }

  predicate IsSpace(c: char) {
    c in {' ', '\t', '\n', '\r', '\U{0B}', '\U{0C}'}
  }

  function Stripped(t: string): string {
    if |t| > 0 && IsSpace(t[0]) then Stripped(t[1..])
    else if |t| > 0 && IsSpace(t[|t| - 1]) then Stripped(t[..|t| - 1])
    else t
  }

  /** int(text): white space around, an optional sign, then digits. */
  function ParseInt(t: string): Option<int> {
    var u := Stripped(t);
    if |u| > 0 && u[0] == '-' then Negated(ParseNat(u[1..]))
    else if |u| > 0 && u[0] == '+' then ParseNat(u[1..])
    else ParseNat(u)
  }

  function Negated(n: Option<int>): Option<int> {
    if n.None? then None else Some(-n.value)
  }

  /** key.split("->", 1): the parts before and after the first arrow. */
  function SplitArrow(t: string): Option<(string, string)> {
    if |t| < 2 then None
    else if t[0] == '-' && t[1] == '>' then Some(("", t[2..]))
    else match SplitArrow(t[1..]) case None => None case Some(parts) => Some(([t[0]] + parts.0, parts.1))
  }

  function ParseEdge(t: string): Option<(NodeId, NodeId)> {
    match SplitArrow(t)
    case None => None
    case Some(parts) =>
      var a, b := ParseInt(parts.0), ParseInt(parts.1);
      if a.Some? && b.Some? then Some((a.value, b.value)) else None
  }

  lemma {:induction false} NatRoundTrip(n: nat)
    ensures ParseNat(NatText(n)) == Some(n)
    ensures forall i :: 0 <= i < |NatText(n)| ==> '0' <= NatText(n)[i] <= '9'
  {
    var digit := ('0' as int + n % 10) as char;
    assert '0' <= digit <= '9' && digit as int - '0' as int == n % 10;
    if n >= 10 {
      NatRoundTrip(n / 10);
      assert NatText(n)[..|NatText(n)| - 1] == NatText(n / 10);
    }
  }

  /** Text that starts and ends with a digit or a sign has no white space to strip. */
  lemma NothingStripped(t: string)
    requires |t| > 0 && ('0' <= t[0] <= '9' || t[0] == '-') && '0' <= t[|t| - 1] <= '9'
    ensures Stripped(t) == t
  {
  }

  lemma IntRoundTrip(i: int)
    ensures ParseInt(IntText(i)) == Some(i)
    ensures forall k :: 0 <= k < |IntText(i)| ==> IntText(i)[k] != '>'
  {
    hide NatText, ParseNat, Stripped, IsSpace;
    var n: nat := if i < 0 then -i else i;
    NatRoundTrip(n);
    NothingStripped(IntText(i));
    if i < 0 {
      assert IntText(i)[1..] == NatText(n);
    }
  }

  /** The first arrow is the one between the ids, also when an id is negative. */
  lemma {:induction false} SplitRoundTrip(a: string, b: string)
    requires forall k :: 0 <= k < |a| ==> a[k] != '>'
    ensures SplitArrow(a + "->" + b) == Some((a, b))
  {
    var t := a + "->" + b;
    if |a| == 0 {
      assert t[2..] == b;
    } else {
      SplitRoundTrip(a[1..], b);
      assert t[1..] == a[1..] + "->" + b;
      assert [a[0]] + a[1..] == a;
    }
  }

  /** Edge keys round-trip, so distinct edges never share a key. */
  lemma EdgeRoundTrip(a: NodeId, b: NodeId)
    ensures ParseEdge(EdgeText(a, b)) == Some((a, b))
  {
    IntRoundTrip(a);
    IntRoundTrip(b);
    SplitRoundTrip(IntText(a), IntText(b));
  }
}
