/**
 * The text formats of OMS controllers, shared by the asyn driver
 * (omsBaseController.cpp) and the MAXnet driver (drvMAXnetAsyn.cc):
 * comma-separated fields, the reply holding one integer per axis, and
 * the per-axis status string.
 */
module OmsFields {
  import opened CSemantics
  import Decimal

  /** The comma-separated fields of s; consecutive commas give empty fields. */
  function Split(s: string): (fs: seq<string>)
    ensures |fs| >= 1
    decreases |s|
  {
    match IndexOf(s, ',')
    case None => [s]
    case Some(k) => [s[..k]] + Split(s[k + 1..])
  }

  /** No field of Split(s) holds a comma. */
  lemma {:induction false} SplitCommaFree(s: string)
    ensures forall k :: 0 <= k < |Split(s)| ==> !Contains(Split(s)[k], ',')
    decreases |s|
  {
    match IndexOf(s, ',')
    case None =>
    case Some(k) =>
      SplitCommaFree(s[k + 1..]);
  }

  /** The fields joined back with commas. */
  function Join(fs: seq<string>): string
    requires |fs| >= 1
  {
    if |fs| == 1 then fs[0] else fs[0] + "," + Join(fs[1..])
  }

  /** Splitting and joining are inverse: Join(Split(s)) == s. */
  lemma {:induction false} JoinSplit(s: string)
    ensures Join(Split(s)) == s
    decreases |s|
  {
    match IndexOf(s, ',')
    case None =>
    case Some(k) =>
      var a := s[..k];
      var rest := s[k + 1..];
      var g := Split(rest);
      JoinSplit(rest);
      assert Split(s) == [a] + g;
      JoinCons(a, g);
      assert s == a + "," + rest;
  }

  /** Joining a first field onto more fields puts one comma between them. */
  lemma JoinCons(a: string, g: seq<string>)
    requires |g| >= 1
    ensures Join([a] + g) == a + "," + Join(g)
  {
    assert ([a] + g)[1..] == g;
  }

  /** Fields without commas split back out of their join. */
  lemma {:induction false} SplitJoin(fs: seq<string>)
    requires |fs| >= 1
    requires forall k :: 0 <= k < |fs| ==> !Contains(fs[k], ',')
    ensures Split(Join(fs)) == fs
    decreases |fs|
  {
    if |fs| > 1 {
      var tail := fs[1..];
      assert forall k :: 0 <= k < |tail| ==> tail[k] == fs[k + 1];
      SplitJoin(tail);
      SplitJoinStep(fs[0], tail);
      assert [fs[0]] + tail == fs;
    } else {
      assert IndexOf(fs[0], ',') == None;
    }
  }

  /** One step of SplitJoin: a comma-free first field splits off its join with the rest. */
  lemma SplitJoinStep(f: string, tail: seq<string>)
    requires |tail| >= 1 && !Contains(f, ',')
    ensures Split(Join([f] + tail)) == [f] + Split(Join(tail))
  {
    var rest := Join(tail);
    var s := Join([f] + tail);
    JoinCons(f, tail);
    FirstCommaAfter(f, rest, s);
  }

  /** A comma-free field, a comma and rest: the first comma is the one after the field. */
  lemma FirstCommaAfter(f: string, rest: string, s: string)
    requires !Contains(f, ',') && s == f + "," + rest
    ensures IndexOf(s, ',') == Some(|f|) && s[..|f|] == f && s[|f| + 1..] == rest
  {
    assert s[|f|] == ',';
    assert forall j :: 0 <= j < |f| ==> s[j] == f[j];
    match IndexOf(s, ',')
    case None =>
    case Some(k) =>
  }

  /** The characters isspace accepts. */
  predicate IsSpace(c: char)
  {
    c == ' ' || c == '\t' || c == '\n' || c == '\r' || c == '\U{000B}' || c == '\U{000C}'
  }

  /** The number of leading characters of s satisfying p. */
  function LeadingCount(s: string, digits: bool): (n: nat)
    ensures n <= |s|
    ensures forall j :: 0 <= j < n ==> (if digits then Decimal.IsDigit(s[j]) else IsSpace(s[j]))
    ensures n < |s| ==> !(if digits then Decimal.IsDigit(s[n]) else IsSpace(s[n]))
  {
    if |s| == 0 then 0
    else if (if digits then Decimal.IsDigit(s[0]) else IsSpace(s[0])) then
      1 + LeadingCount(s[1..], digits)
    else 0
  }

  /** The digits after an optional sign: the value and the characters used, 0 without digits. */
  function SignedDigits(t: string): (r: (int, nat))
    ensures r.1 <= |t|
    ensures r.1 == 0 ==> r.0 == 0
    ensures r.1 > 0 ==> r.1 == |t| || !Decimal.IsDigit(t[r.1])
  {
    var sign := if |t| > 0 && (t[0] == '+' || t[0] == '-') then 1 else 0;
    var nd := LeadingCount(t[sign..], true);
    if nd == 0 then (0, 0)
    else
      var v := Decimal.DigitsValue(t[sign..][..nd]) as int;
      (if sign == 1 && t[0] == '-' then -v else v, sign + nd)
  }

  /**
   * strtol(s, &end, 10): leading white space, an optional sign and the
   * longest run of digits. Returns the value, saturated at LONG_MIN or
   * LONG_MAX when the digits lie beyond the range of long, and the number
   * of characters consumed, which is 0 (and the value 0) when there are
   * no digits.
   */
  function Strtol(s: string): (r: (int, nat))
    ensures r.1 <= |s|
    ensures LONG_MIN <= r.0 <= LONG_MAX
    ensures r.1 == 0 ==> r.0 == 0
    ensures r.1 > 0 ==> r.1 == |s| || !Decimal.IsDigit(s[r.1])
  {
    var ws := LeadingCount(s, false);
    var (v, n) := SignedDigits(s[ws..]);
    if n == 0 then (0, 0) else (SaturateLong(v), ws + n)
  }

  /** The leading digits of s end exactly at a first non-digit k. */
  lemma LeadingDigitsEnd(s: string, k: nat)
    requires k <= |s|
    requires forall j :: 0 <= j < k ==> Decimal.IsDigit(s[j])
    requires k == |s| || !Decimal.IsDigit(s[k])
    ensures LeadingCount(s, true) == k
  {
  }

  lemma LeadingDigitsOfNat(n: nat, rest: string)
    requires |rest| == 0 || !Decimal.IsDigit(rest[0])
    ensures LeadingCount(Decimal.NatString(n) + rest, true) == |Decimal.NatString(n)|
  {
    var d := Decimal.NatString(n);
    var s := d + rest;
    assert forall j :: 0 <= j < |d| ==> s[j] == d[j];
    assert |d| < |s| ==> s[|d|] == rest[0];
    LeadingDigitsEnd(s, |d|);
  }

  /** Digits followed by a non-digit read back as their value. */
  lemma UnsignedDigitsOfNat(n: nat, rest: string)
    requires |rest| == 0 || !Decimal.IsDigit(rest[0])
    ensures SignedDigits(Decimal.NatString(n) + rest) == (n, |Decimal.NatString(n)|)
  {
    var d := Decimal.NatString(n);
    var t := d + rest;
    assert t[0] == d[0];
    assert t[0..] == t;
    LeadingDigitsOfNat(n, rest);
    assert t[..|d|] == d;
    Decimal.NatStringRoundTrip(n);
  }

  /** A minus sign, digits and a non-digit read back as the negated value. */
  lemma NegativeDigitsOfNat(n: nat, rest: string)
    requires n > 0
    requires |rest| == 0 || !Decimal.IsDigit(rest[0])
    ensures SignedDigits("-" + Decimal.NatString(n) + rest) == (-(n as int), 1 + |Decimal.NatString(n)|)
  {
    var d := Decimal.NatString(n);
    var u := d + rest;
    var t := "-" + d + rest;
    MinusParts(d, rest);
    LeadingDigitsOfNat(n, rest);
    var nd := |d|;
    assert u[..nd] == d;
    Decimal.NatStringRoundTrip(n);
    SignedDigitsAfterMinus(t, u, nd);
  }

  /** After a minus sign the digits read as their negated value. */
  lemma SignedDigitsAfterMinus(t: string, u: string, nd: nat)
    requires |t| >= 1 && t[0] == '-' && u == t[1..]
    requires nd == LeadingCount(u, true) && nd > 0
    ensures SignedDigits(t) == (-(Decimal.DigitsValue(u[..nd]) as int), 1 + nd)
  {
  }

  lemma MinusParts(d: string, rest: string)
    ensures ("-" + d + rest)[0] == '-' && ("-" + d + rest)[1..] == d + rest
  {
  }

  /** Without leading white space strtol reads the signed digits directly. */
  lemma StrtolWithoutSpace(s: string)
    requires |s| > 0 && !IsSpace(s[0])
    ensures Strtol(s) == (SaturateLong(SignedDigits(s).0), SignedDigits(s).1)
  {
    assert LeadingCount(s, false) == 0;
    assert s[0..] == s;
  }

  lemma StrtolOfNegative(n: nat, rest: string)
    requires n > 0
    requires |rest| == 0 || !Decimal.IsDigit(rest[0])
    ensures Strtol("-" + Decimal.NatString(n) + rest)
            == (SaturateLong(-(n as int)), 1 + |Decimal.NatString(n)|)
  {
    var s := "-" + Decimal.NatString(n) + rest;
    assert s[0] == '-';
    StrtolWithoutSpace(s);
    NegativeDigitsOfNat(n, rest);
  }

  lemma StrtolOfNat(n: nat, rest: string)
    requires |rest| == 0 || !Decimal.IsDigit(rest[0])
    ensures Strtol(Decimal.NatString(n) + rest) == (SaturateLong(n), |Decimal.NatString(n)|)
  {
    var s := Decimal.NatString(n) + rest;
    assert s[0] == Decimal.NatString(n)[0];
    StrtolWithoutSpace(s);
    UnsignedDigitsOfNat(n, rest);
  }

  /**
   * strtol reads back what %d printed, stopping at the first non-digit;
   * a value beyond the range of long reads as the nearer bound.
   */
  lemma StrtolOfInt(v: int, rest: string)
    requires |rest| == 0 || !Decimal.IsDigit(rest[0])
    ensures Strtol(Decimal.IntString(v) + rest) == (SaturateLong(v), |Decimal.IntString(v)|)
    ensures LONG_MIN <= v <= LONG_MAX ==> Strtol(Decimal.IntString(v) + rest).0 == v
  {
    var d := Decimal.IntString(v);
    if v < 0 {
      var m: nat := -v;
      var e := Decimal.NatString(m);
      assert d == "-" + e;
      StrtolOfNegative(m, rest);
      assert "-" + e + rest == d + rest;
    } else {
      StrtolOfNat(v, rest);
    }
  }

  /**
   * The loop of getAxesArray (and MAXnet's sendReceiveContrArray) over
   * the rest t of the reply, with budget iterations left: a comma is an
   * empty value 0, and a comma ending the reply adds a second 0;
   * otherwise strtol reads a value and the character after it is
   * skipped; strtol's long is stored in the int intVal, so only its low
   * 32 bits survive. The loop ends at the reply's end or at a field
   * strtol cannot read.
   */
  function ParseValues(t: string, budget: nat): (vals: seq<int>)
    decreases budget
  {
    if budget == 0 then []
    else if |t| > 0 && t[0] == ',' then
      if |t| == 1 then [0, 0] else [0] + ParseValues(t[1..], budget - 1)
    else
      var (v, n) := Strtol(t);
      if n == 0 then []
      else if n >= |t| then [Int32(v)]
      else [Int32(v)] + ParseValues(t[n + 1..], budget - 1)
  }

  /** C's (unsigned int) conversion of an int. */
  function Unsigned(x: int): (u: nat)
    ensures u < 0x1_0000_0000
    ensures 0 <= x < 0x1_0000_0000 ==> u == x
  {
    x % 0x1_0000_0000
  }

  /** The reply status and the values it holds. */
  datatype ArrayReply = ArrayReply(status: AsynStatus, values: seq<int>)

  /**
   * getAxesArray: a failed exchange passes its status through; a reply
   * shorter than numAxes - 1 characters (compared unsigned, so numAxes 0
   * always fails) is an error; so is a reply with other than numAxes values.
   */
  function AxesArray(sendStatus: AsynStatus, reply: string, numAxes: int, maxAxes: nat)
    : (r: ArrayReply)
    ensures sendStatus != AsynSuccess ==> r.status == sendStatus
    ensures r.status == AsynSuccess <==>
              sendStatus == AsynSuccess && |reply| >= Unsigned(numAxes - 1)
              && |ParseValues(reply, maxAxes)| == numAxes
    ensures r.status == AsynSuccess ==> r.values == ParseValues(reply, maxAxes) && |r.values| == numAxes
    ensures numAxes == 0 && sendStatus == AsynSuccess && |reply| < 0xFFFF_FFFF ==> r.status == AsynError
  {
    if sendStatus != AsynSuccess then ArrayReply(sendStatus, [])
    else if |reply| < Unsigned(numAxes - 1) then ArrayReply(AsynError, [])
    else
      var vals := ParseValues(reply, maxAxes);
      if |vals| != numAxes then ArrayReply(AsynError, []) else ArrayReply(AsynSuccess, vals)
  }

  /** A field of a well-formed reply: empty, or a number printed with %d. */
  function Render(f: Option<int>): string
  {
    match f
    case None => ""
    case Some(v) => Decimal.IntString(v)
  }

  function RenderAll(fs: seq<Option<int>>): (r: seq<string>)
    ensures |r| == |fs|
    ensures forall k :: 0 <= k < |fs| ==> r[k] == Render(fs[k])
  {
    if |fs| == 0 then [] else [Render(fs[0])] + RenderAll(fs[1..])
  }

  /** The value a field holds: 0 for an empty one. */
  function FieldValue(f: Option<int>): int
  {
    match f
    case None => 0
    case Some(v) => v
  }

  /** The int the loop stores for a printed value v: strtol's long, narrowed to 32 bits. */
  function Stored(v: int): (r: int)
    ensures -0x8000_0000 <= r < 0x8000_0000
    ensures -0x8000_0000 <= v < 0x8000_0000 ==> r == v
  {
    Int32(SaturateLong(v))
  }

  /**
   * How many values the loop counts in a well-formed reply: every field,
   * except a final empty field that follows a number (or stands alone):
   * "5," counts 1, ",," counts 3, "" counts 0.
   */
  function ExpectedCount(fs: seq<Option<int>>): (n: nat)
    requires |fs| >= 1
    ensures n == |fs| || n == |fs| - 1
  {
    if fs[|fs| - 1].None? && (|fs| == 1 || fs[|fs| - 2].Some?) then |fs| - 1 else |fs|
  }

  /** The reply text of the fields fs. */
  function Reply(fs: seq<Option<int>>): string
    requires |fs| >= 1
  {
    Join(RenderAll(fs))
  }

  lemma ReplyCons(fs: seq<Option<int>>, tail: seq<Option<int>>)
    requires |fs| >= 2 && tail == fs[1..]
    ensures Reply(fs) == Render(fs[0]) + "," + Reply(tail)
  {
    assert RenderAll(fs)[1..] == RenderAll(tail);
  }

  lemma ReplyEmpty(fs: seq<Option<int>>)
    requires |fs| >= 1
    ensures Reply(fs) == "" <==> |fs| == 1 && fs[0].None?
  {
    if |fs| > 1 {
      ReplyCons(fs, fs[1..]);
    } else if fs[0].Some? {
      assert |Decimal.IntString(fs[0].value)| >= 1;
    }
  }

  lemma ExpectedCountStep(fs: seq<Option<int>>)
    requires |fs| >= 2
    ensures ExpectedCount(fs)
            == if fs == [None, None] then 2 else 1 + ExpectedCount(fs[1..])
  {
  }

  /** Values holds the stored field values of fs, empty fields as 0, in order. */
  predicate ValuesOf(vals: seq<int>, fs: seq<Option<int>>)
    requires |fs| >= 1
  {
    |vals| == ExpectedCount(fs)
    && forall k :: 0 <= k < |vals| ==> vals[k] == Stored(FieldValue(fs[k]))
  }

  lemma ParseSingle(fs: seq<Option<int>>, budget: nat)
    requires |fs| == 1 && budget >= 1
    ensures ValuesOf(ParseValues(Reply(fs), budget), fs)
  {
    var s := Reply(fs);
    assert s == Render(fs[0]);
    match fs[0]
    case None =>
      assert s == "";
      assert Strtol(s) == (0, 0);
      assert ParseValues(s, budget) == [];
    case Some(v) =>
      var d := Decimal.IntString(v);
      assert s == d + "";
      StrtolOfInt(v, "");
      assert ParseValues(s, budget) == [Stored(v)];
  }

  /** Prepending the value of a field that is not the last of [None, None] keeps ValuesOf. */
  lemma ValuesOfCons(x: int, vals: seq<int>, fs: seq<Option<int>>, tail: seq<Option<int>>)
    requires |fs| >= 2 && fs != [None, None] && tail == fs[1..]
    requires x == Stored(FieldValue(fs[0]))
    requires ValuesOf(vals, tail)
    ensures ValuesOf([x] + vals, fs)
  {
    ExpectedCountStep(fs);
    var all := [x] + vals;
    forall k | 0 <= k < |all|
      ensures all[k] == Stored(FieldValue(fs[k]))
    {
      if k > 0 {
        assert all[k] == vals[k - 1];
        assert tail[k - 1] == fs[k];
      }
    }
  }

  /** An empty first field reads as 0, then the loop goes on with the fields tail after it. */
  lemma ParseEmptyHead(fs: seq<Option<int>>, tail: seq<Option<int>>, budget: nat, b: nat)
    requires 2 <= |fs| <= budget && fs[0].None?
    requires tail == fs[1..] && b == budget - 1
    requires ValuesOf(ParseValues(Reply(tail), b), tail)
    ensures ValuesOf(ParseValues(Reply(fs), budget), fs)
  {
    var restStr := Reply(tail);
    ReplyCons(fs, tail);
    var s := Reply(fs);
    assert Render(fs[0]) == "";
    CommaFirst(restStr, s);
    ReplyEmpty(tail);
    if restStr == "" {
      assert fs == [None, None];
      assert ParseValues(s, budget) == [0, 0];
      ExpectedCountStep(fs);
    } else {
      var p := ParseValues(restStr, b);
      ParseCommaStep(s, budget, b, restStr);
      ValuesOfCons(0, p, fs, tail);
    }
  }

  /** The text of an empty field, a comma and rest starts with the comma, rest after it. */
  lemma CommaFirst(rest: string, s: string)
    requires s == "" + "," + rest
    ensures |s| == |rest| + 1 && s[0] == ',' && s[1..] == rest
  {
  }

  /** One step of the loop over an empty field that is not the last character. */
  lemma ParseCommaStep(t: string, budget: nat, b: nat, rest: string)
    requires budget >= 1 && b == budget - 1
    requires |t| >= 2 && t[0] == ',' && rest == t[1..]
    ensures ParseValues(t, budget) == [0] + ParseValues(rest, b)
  {
  }

  /** A number and a comma read as that number, then the rest. */
  lemma ParseAfterNumber(v: int, restStr: string, s: string, budget: nat, b: nat)
    requires s == Decimal.IntString(v) + "," + restStr
    requires budget >= 1 && b == budget - 1
    ensures ParseValues(s, budget) == [Stored(v)] + ParseValues(restStr, b)
  {
    var d := Decimal.IntString(v);
    var tail := "," + restStr;
    CommaSplice(d, restStr, s, tail);
    StrtolOfInt(v, tail);
    ParseStep(s, budget, b, SaturateLong(v), |d|, restStr);
  }

  /** The text d, a comma and rest, seen as d followed by the comma and rest. */
  lemma CommaSplice(d: string, rest: string, s: string, tail: string)
    requires |d| >= 1 && s == d + "," + rest && tail == "," + rest
    ensures s == d + tail && s[0] == d[0] && s[|d| + 1..] == rest
  {
  }

  /** One step of the loop over a field strtol reads as v using n characters, and the separator after it. */
  lemma ParseStep(t: string, budget: nat, b: nat, v: int, n: nat, rest: string)
    requires budget >= 1 && b == budget - 1
    requires |t| > 0 && t[0] != ','
    requires Strtol(t) == (v, n) && 0 < n < |t| && rest == t[n + 1..]
    ensures ParseValues(t, budget) == [Int32(v)] + ParseValues(rest, b)
  {
  }

  /** A first field holding a number reads as it, then the loop goes on with the fields tail after it. */
  lemma ParseNumberHead(fs: seq<Option<int>>, tail: seq<Option<int>>, budget: nat, b: nat)
    requires 2 <= |fs| <= budget && fs[0].Some?
    requires tail == fs[1..] && b == budget - 1
    requires ValuesOf(ParseValues(Reply(tail), b), tail)
    ensures ValuesOf(ParseValues(Reply(fs), budget), fs)
  {
    var v := fs[0].value;
    var restStr := Reply(tail);
    var p := ParseValues(restStr, b);
    ReplyCons(fs, tail);
    var s := Reply(fs);
    assert s == Decimal.IntString(v) + "," + restStr;
    ParseAfterNumber(v, restStr, s, budget, b);
    ValuesOfCons(Stored(v), p, fs, tail);
  }

  /**
   * On a reply of at most budget well-formed fields, the loop yields one
   * value per counted field, in order, as the int it stores: empty fields
   * read as 0.
   */
  lemma {:induction false} ParseWellFormed(fs: seq<Option<int>>, budget: nat)
    requires 1 <= |fs| <= budget
    ensures ValuesOf(ParseValues(Reply(fs), budget), fs)
    decreases |fs|
  {
    if |fs| == 1 {
      ParseSingle(fs, budget);
    } else {
      var tail, b := fs[1..], budget - 1;
      ParseWellFormed(tail, b);
      if fs[0].None? {
        ParseEmptyHead(fs, tail, budget, b);
      } else {
        ParseNumberHead(fs, tail, budget, b);
      }
    }
  }

  /** When every field fits a 32-bit int, the loop yields the field values themselves. */
  lemma ParseInt32Fields(fs: seq<Option<int>>, budget: nat)
    requires 1 <= |fs| <= budget
    requires forall k :: 0 <= k < |fs| ==> -0x8000_0000 <= FieldValue(fs[k]) < 0x8000_0000
    ensures var vals := ParseValues(Reply(fs), budget);
            |vals| == ExpectedCount(fs) && forall k :: 0 <= k < |vals| ==> vals[k] == FieldValue(fs[k])
  {
    ParseWellFormed(fs, budget);
  }

  /** A reply holding one printed value stores that value as the loop's int. */
  lemma ParseOneValue(v: int, budget: nat)
    requires budget >= 1
    ensures ParseValues(Decimal.IntString(v), budget) == [Stored(v)]
  {
    var d := Decimal.IntString(v);
    StrtolOfInt(v, "");
    assert d + "" == d;
  }

  /** 3000000000 lies beyond the 32-bit range and is stored wrapped, as -1294967296. */
  lemma WideValueWraps(big: int)
    requires big == 3000000000
    ensures ParseValues(Decimal.IntString(big), 1) == [-1294967296]
  {
    ParseOneValue(big, 1);
    WideStored(big);
  }

  lemma WideStored(big: int)
    requires big == 3000000000
    ensures Stored(big) == -1294967296
  {
  }

  /** strtol on the printed form of v alone: v saturated to the range of long. */
  lemma StrtolOfIntAlone(v: int)
    ensures Strtol(Decimal.IntString(v)).0 == SaturateLong(v)
  {
    StrtolOfInt(v, "");
    assert Decimal.IntString(v) + "" == Decimal.IntString(v);
  }

  lemma HugeStored(huge: int)
    requires huge == 0x8000_0000_0000_0000
    ensures SaturateLong(huge) == LONG_MAX && Stored(huge) == -1
  {
  }

  /** 2^63 lies beyond the range of long: strtol saturates it to LONG_MAX, stored as -1. */
  lemma HugeValueSaturates(huge: int)
    requires huge == 0x8000_0000_0000_0000
    ensures Strtol(Decimal.IntString(huge)).0 == LONG_MAX
    ensures ParseValues(Decimal.IntString(huge), 1) == [-1]
  {
    StrtolOfIntAlone(huge);
    ParseOneValue(huge, 1);
    HugeStored(huge);
  }

  /** The status reply and whether it reports any axis done. */
  datatype StatusReply = StatusReply(status: AsynStatus, done: bool)

  /** Characters per axis in the status string ("PNNN," and the like). */
  const STATUS_STRING_LEN: nat := 5

  /**
   * getAxesStatus (and MAXnet's sendReceiveContrStatus): done iff the
   * reply holds a 'D'; the reply is an error unless it starts with 'P'
   * or 'M' and has at least 5 * numAxes - 1 characters (compared unsigned).
   */
  function AxesStatus(sendStatus: AsynStatus, reply: string, numAxes: int): (r: StatusReply)
    ensures sendStatus != AsynSuccess ==> r == StatusReply(sendStatus, false)
    ensures sendStatus == AsynSuccess ==> (r.done <==> Contains(reply, 'D'))
    ensures r.status == AsynSuccess <==>
              sendStatus == AsynSuccess && |reply| >= 1 && (reply[0] == 'P' || reply[0] == 'M')
              && |reply| >= Unsigned(numAxes * STATUS_STRING_LEN - 1)
    ensures r.status != AsynSuccess ==> r.status == sendStatus || r.status == AsynError
  {
    if sendStatus != AsynSuccess then StatusReply(sendStatus, false)
    else
      var done := IndexOf(reply, 'D').Some?;
      var first := if |reply| > 0 then reply[0] else '\0';
      var bad := !(first == 'P' || first == 'M') || |reply| < Unsigned(numAxes * STATUS_STRING_LEN - 1);
      StatusReply(if bad then AsynError else AsynSuccess, done)
  }

  /** The character at index k of a C string: NUL past its end. */
  function CharAt(s: string, k: nat): char
  {
    if k < |s| then s[k] else '\0'
  }
}
