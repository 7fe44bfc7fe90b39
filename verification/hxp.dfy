/**
 * The string helpers of the Newport HXP driver library: ReplaceCharacter,
 * CleanString and DeleteCharacters, which protect ';' inside {...}
 * arguments while a list is split, and the assembly of a command that
 * takes a list of arguments.
 */
module Hxp {
  import opened CSemantics

  /** SIZE_NOMINAL, the size of the local output buffers. */
  const SizeNominal: nat := 1024

  /** The start and end characters of a protected argument, '{' and '}' at every call site. */
  datatype Brackets = Brackets(open: char, close: char)

  // ---------------------------------------------------------------------
  // Bracket structure

  /**
   * Scanning state after one character: inside a bracket pair (the
   * character is not the closing one), or just opened one.
   */
  function Next(c: char, br: Brackets, inside: bool): bool
  {
    (inside && c != br.close) || c == br.open
  }

  /** Which characters of t lie strictly between an opening and its closing character. */
  function Inside(t: string, br: Brackets, inside: bool): (m: seq<bool>)
    ensures |m| == |t|
  {
    if |t| == 0 then []
    else [inside && t[0] != br.close] + Inside(t[1..], br, Next(t[0], br, inside))
  }

  /** The scan of t ends inside an unclosed pair. */
  predicate Open(t: string, br: Brackets, inside: bool)
  {
    if |t| == 0 then inside else Open(t[1..], br, Next(t[0], br, inside))
  }

  // ---------------------------------------------------------------------
  // ReplaceCharacter

  /** s with every oldC replaced by newC. */
  function Swap(s: string, oldC: char, newC: char): string
  {
    seq(|s|, i requires 0 <= i < |s| => if s[i] == oldC then newC else s[i])
  }

  /**
   * ReplaceCharacter as intended: within the C string t, oldC becomes
   * newC exactly at the characters strictly inside a bracket pair.
   */
  function Replace(t: string, oldC: char, newC: char, br: Brackets, inside: bool): (r: string)
    ensures |r| == |t|
  {
    if |t| == 0 then []
    else
      var c := if inside && t[0] != br.close && t[0] == oldC then newC else t[0];
      [c] + Replace(t[1..], oldC, newC, br, Next(t[0], br, inside))
  }

  /** The outcome of strchr on a buffer. */
  datatype Search = Found(at: nat) | NotFound | Overrun

  /**
   * strchr from position i of a buffer: the first c, unless a NUL comes
   * first (a NUL c finds the terminator itself); Overrun when the search
   * runs off the end of the buffer.
   */
  function StrChrFrom(b: string, i: nat, c: char): (r: Search)
    requires i <= |b|
    ensures r.Found? ==> i <= r.at < |b| && b[r.at] == c
    decreases |b| - i
  {
    if i == |b| then Overrun
    else if b[i] == c then Found(i)
    else if b[i] == '\0' then NotFound
    else StrChrFrom(b, i + 1, c)
  }

  /** The first c at or after position i, ignoring terminators; None when there is none. */
  function IndexFrom(b: string, i: nat, c: char): (r: Option<nat>)
    requires i <= |b|
    ensures r.Some? ==> i <= r.value < |b| && b[r.value] == c && c !in b[i..r.value]
    ensures r.None? ==> c !in b[i..]
    decreases |b| - i
  {
    if i == |b| then None
    else if b[i] == c then Some(i)
    else IndexFrom(b, i + 1, c)
  }

  /**
   * ReplaceCharacter as written, on the buffer b from position i on: find
   * the next startChar with strchr, replace oldChar until the next
   * endChar, scanning without regard to the terminator, and resume the
   * search at that endChar. The result is the buffer from i on; None
   * when a scan would leave the buffer.
   */
  function ReplaceFrom(b: string, i: nat, oldC: char, newC: char, br: Brackets): (r: Option<string>)
    requires i <= |b|
    ensures r.Some? ==> |r.value| == |b| - i
    decreases |b| - i
  {
    match StrChrFrom(b, i, br.open)
    case NotFound => Some(b[i..])
    case Overrun => None
    case Found(k) =>
      match IndexFrom(b, k + 1, br.close)
      case None => None
      case Some(e) =>
        match ReplaceFrom(b, e, oldC, newC, br)
        case None => None
        case Some(rest) => Some(b[i..k + 1] + Swap(b[k + 1..e], oldC, newC) + rest)
  }

  /** ReplaceCharacter as written on a whole buffer. */
  function ReplaceAsWritten(b: string, oldC: char, newC: char, br: Brackets): (r: Option<string>)
    ensures r.Some? ==> |r.value| == |b|
  {
    ReplaceFrom(b, 0, oldC, newC, br)
  }

  /**
   * ReplaceCharacter with the scan kept inside the C string: the text is
   * rewritten by Replace and the bytes after the terminator are left alone.
   */
  function ReplaceCharacter(b: string, oldC: char, newC: char, br: Brackets): (r: string)
    ensures |r| == |b| && r[|CText(b)|..] == b[|CText(b)|..]
    ensures newC != '\0' ==> CText(r) == Replace(CText(b), oldC, newC, br, false)
  {
    var t := CText(b);
    var r := Replace(t, oldC, newC, br, false) + b[|t|..];
    if newC != '\0' then ReplaceKeepsNul(b, t, oldC, newC, br, r); r else r
  }

  /** Replace does not create a NUL when newC is not one, so the terminator stays where it was. */
  lemma ReplaceKeepsNul(b: string, t: string, oldC: char, newC: char, br: Brackets, r: string)
    requires t == CText(b) && newC != '\0' && r == Replace(t, oldC, newC, br, false) + b[|t|..]
    ensures CText(r) == Replace(t, oldC, newC, br, false)
  {
    ReplaceByMask(t, oldC, newC, br, false);
    var m := Replace(t, oldC, newC, br, false);
    forall i | 0 <= i < |m|
      ensures m[i] != '\0'
    {
      assert t[i] in t;
    }
    assert r[..|t|] == m;
    CTextIs(r, |t|);
  }

  /**
   * An opening brace without its closing one: the code as written goes on
   * past the terminator and rewrites the ';' stored after it.
   */
  lemma ReplacePastTerminator(b: string, br: Brackets)
    requires br == Brackets('{', '}') && b == ['{', ';', '\0', ';', '}', '\0']
    ensures ReplaceAsWritten(b, ';', ':', br) == Some(['{', ':', '\0', ':', '}', '\0'])
    ensures ReplaceCharacter(b, ';', ':', br) == ['{', ':', '\0', ';', '}', '\0']
  {
    assert StrChrFrom(b, 0, '{') == Found(0);
    assert IndexFrom(b, 3, '}') == Some(4);
    assert IndexFrom(b, 1, '}') == Some(4);
    assert StrChrFrom(b, 5, '{') == NotFound;
    assert StrChrFrom(b, 4, '{') == NotFound;
    assert ReplaceFrom(b, 4, ';', ':', br) == Some(['}', '\0']);
    assert Swap(b[1..4], ';', ':') == [':', '\0', ':'];
    UnfoldRound(b, 0, 0, 4, ';', ':', br, ['{'], b[1..4], ['}', '\0']);
    assert ['{'] + [':', '\0', ':'] + ['}', '\0'] == ['{', ':', '\0', ':', '}', '\0'];
    var t := ['{', ';'];
    assert b[..2] == t;
    CTextIs(b, 2);
    assert t[1..] == [';'];
    assert Replace(t[1..], ';', ':', br, true) == [':'];
    assert Replace(t, ';', ':', br, false) == ['{', ':'];
  }

  /**
   * Replace changes exactly the oldC characters that lie inside a bracket
   * pair, to newC, and keeps every other character.
   */
  lemma {:induction false} ReplaceByMask(t: string, oldC: char, newC: char, br: Brackets, inside: bool)
    ensures var r := Replace(t, oldC, newC, br, inside); var m := Inside(t, br, inside);
      forall i :: 0 <= i < |t| ==> r[i] == (if m[i] && t[i] == oldC then newC else t[i])
  {
    if |t| > 0 {
      ReplaceByMask(t[1..], oldC, newC, br, Next(t[0], br, inside));
    }
  }

  /** Without an opening character, nothing lies inside a pair and nothing is replaced. */
  lemma {:induction false} NoOpenIsIdentity(t: string, oldC: char, newC: char, br: Brackets)
    requires br.open !in t
    ensures Replace(t, oldC, newC, br, false) == t
  {
    if |t| > 0 {
      assert br.open !in t[1..];
      NoOpenIsIdentity(t[1..], oldC, newC, br);
    }
  }

  /**
   * The protection of ';' while a list is split: replacing ';' by ':'
   * inside braces and then ':' by ';' inside braces restores the text,
   * provided ':' did not already occur inside braces.
   */
  lemma {:induction false} ProtectRoundTrip(t: string, oldC: char, newC: char, br: Brackets, inside: bool)
    requires oldC != br.open && oldC != br.close && newC != br.open && newC != br.close
    requires var m := Inside(t, br, inside); forall i :: 0 <= i < |t| && m[i] ==> t[i] != newC
    ensures Replace(Replace(t, oldC, newC, br, inside), newC, oldC, br, inside) == t
  {
    if |t| > 0 {
      var r := Replace(t, oldC, newC, br, inside);
      var m := Inside(t, br, inside);
      var next := Next(t[0], br, inside);
      assert Next(r[0], br, inside) == next;
      assert r[1..] == Replace(t[1..], oldC, newC, br, next);
      forall i | 0 <= i < |t| - 1 && Inside(t[1..], br, next)[i]
        ensures t[1..][i] != newC
      {
        assert m[i + 1];
      }
      ProtectRoundTrip(t[1..], oldC, newC, br, next);
    }
  }

  /** A closing character is handled the same whether or not a pair is open. */
  lemma AtClose(u: string, oldC: char, newC: char, br: Brackets)
    requires |u| > 0 && u[0] == br.close
    ensures Replace(u, oldC, newC, br, true) == Replace(u, oldC, newC, br, false)
    ensures Open(u, br, true) == Open(u, br, false)
  {
  }

  /** An opened pair that is never closed leaves the scan open. */
  lemma {:induction false} UnclosedStaysOpen(u: string, br: Brackets)
    requires br.close !in u
    ensures Open(u, br, true)
  {
    if |u| > 0 {
      assert br.close !in u[1..];
      UnclosedStaysOpen(u[1..], br);
    }
  }

  /** strchr within a C string finds the first occurrence, or reports that there is none. */
  lemma {:induction false} StrChrInText(b: string, t: string, i: nat, c: char)
    requires t == CText(b) && |t| < |b| && i <= |t| && c != '\0'
    ensures c in t[i..] ==>
      (StrChrFrom(b, i, c).Found? && StrChrFrom(b, i, c).at < |t| && c !in t[i..StrChrFrom(b, i, c).at])
    ensures c !in t[i..] ==> StrChrFrom(b, i, c) == NotFound
    decreases |t| - i
  {
    if i < |t| {
      assert t[i] == b[i];
      if b[i] != c {
        assert t[i..] == [t[i]] + t[i + 1..];
        StrChrInText(b, t, i + 1, c);
      }
    }
  }

  /**
   * On a C string whose every opening character is closed, the code as
   * written agrees with Replace and leaves the bytes after the terminator
   * alone.
   */
  lemma AsWrittenAgrees(b: string, oldC: char, newC: char, br: Brackets)
    requires |CText(b)| < |b| && br.open != '\0' && !Open(CText(b), br, false)
    ensures ReplaceAsWritten(b, oldC, newC, br) ==
      Some(Replace(CText(b), oldC, newC, br, false) + b[|CText(b)|..])
  {
    var t := CText(b);
    assert t[0..] == t;
    AgreesFrom(b, t, 0, oldC, newC, br);
  }

  /** AsWrittenAgrees from position i of the string on, where the scan is outside any pair. */
  lemma {:induction false} AgreesFrom(b: string, t: string, i: nat, oldC: char, newC: char, br: Brackets)
    requires t == CText(b) && |t| < |b| && i <= |t| && br.open != '\0' && !Open(t[i..], br, false)
    ensures ReplaceFrom(b, i, oldC, newC, br) == Some(Replace(t[i..], oldC, newC, br, false) + b[|t|..])
    decreases |t| - i
  {
    var n := |t|;
    StrChrInText(b, t, i, br.open);
    if br.open !in t[i..] {
      NoOpenCase(b, t, i, oldC, newC, br);
    } else {
      var k := StrChrFrom(b, i, br.open).at;
      ClosedAfterOpen(t, i, k, oldC, newC, br);
      var e := CloseAfter(b, t, k, br);
      RefRound(t, i, k, e, oldC, newC, br);
      AgreesFrom(b, t, e, oldC, newC, br);
      PairCase(b, t, i, k, e, oldC, newC, br);
    }
  }

  /** AgreesFrom when no opening character is left: the code stops and Replace copies. */
  lemma NoOpenCase(b: string, t: string, i: nat, oldC: char, newC: char, br: Brackets)
    requires t == CText(b) && |t| < |b| && i <= |t| && br.open !in t[i..]
    requires StrChrFrom(b, i, br.open) == NotFound
    ensures ReplaceFrom(b, i, oldC, newC, br) == Some(Replace(t[i..], oldC, newC, br, false) + b[|t|..])
  {
    NoOpenIsIdentity(t[i..], oldC, newC, br);
    assert b[i..] == t[i..] + b[|t|..];
  }

  /** AgreesFrom for a pair from k to e, given its conclusion from e on. */
  lemma PairCase(b: string, t: string, i: nat, k: nat, e: nat, oldC: char, newC: char, br: Brackets)
    requires t == CText(b) && |t| < |b| && i <= k < e < |t| && t[k] == br.open
    requires StrChrFrom(b, i, br.open) == Found(k) && IndexFrom(b, k + 1, br.close) == Some(e)
    requires Replace(t[i..], oldC, newC, br, false) ==
      t[i..k] + ([br.open] + (Swap(t[k + 1..e], oldC, newC) + Replace(t[e..], oldC, newC, br, false)))
    requires ReplaceFrom(b, e, oldC, newC, br) == Some(Replace(t[e..], oldC, newC, br, false) + b[|t|..])
    ensures ReplaceFrom(b, i, oldC, newC, br) == Some(Replace(t[i..], oldC, newC, br, false) + b[|t|..])
  {
    var n := |t|;
    var w := Swap(t[k + 1..e], oldC, newC);
    var R := Replace(t[e..], oldC, newC, br, false);
    var p, o := t[i..k], [br.open];
    TextSlices(b, t, i, k, e);
    UnfoldRound(b, i, k, e, oldC, newC, br, p + o, t[k + 1..e], R + b[n..]);
    Reassemble(p, o, w, R, b[n..]);
  }

  /** An opening character reached outside any pair is closed later when the scan ends outside. */
  lemma ClosedAfterOpen(t: string, i: nat, k: nat, oldC: char, newC: char, br: Brackets)
    requires i <= k < |t| && t[k] == br.open && br.open !in t[i..k] && !Open(t[i..], br, false)
    ensures br.close in t[k + 1..]
  {
    OutsideRunAt(t, i, k, oldC, newC, br);
    OpenStep(t, k, oldC, newC, br);
    if br.close !in t[k + 1..] {
      UnclosedStaysOpen(t[k + 1..], br);
    }
  }

  /** Replace over one bracket pair: the text before it, the pair with its inside swapped, the rest. */
  lemma RefRound(t: string, i: nat, k: nat, e: nat, oldC: char, newC: char, br: Brackets)
    requires i <= k < e < |t| && t[k] == br.open && t[e] == br.close
    requires br.open !in t[i..k] && br.close !in t[k + 1..e]
    ensures Replace(t[i..], oldC, newC, br, false) ==
      t[i..k] + ([br.open] + (Swap(t[k + 1..e], oldC, newC) + Replace(t[e..], oldC, newC, br, false)))
    ensures Open(t[i..], br, false) == Open(t[e..], br, false)
  {
    OutsideRunAt(t, i, k, oldC, newC, br);
    OpenStep(t, k, oldC, newC, br);
    InsideRunAt(t, k + 1, e, oldC, newC, br);
    AtClose(t[e..], oldC, newC, br);
  }

  /** OutsideRun on the suffixes of one text. */
  lemma {:induction false} OutsideRunAt(t: string, i: nat, k: nat, oldC: char, newC: char, br: Brackets)
    requires i <= k <= |t| && br.open !in t[i..k]
    ensures Replace(t[i..], oldC, newC, br, false) == t[i..k] + Replace(t[k..], oldC, newC, br, false)
    ensures Open(t[i..], br, false) == Open(t[k..], br, false)
    decreases k - i
  {
    if i < k {
      assert t[i..][1..] == t[i + 1..] && t[i] != br.open;
      OutsideRunAt(t, i + 1, k, oldC, newC, br);
      assert t[i..k] == [t[i]] + t[i + 1..k];
    }
  }

  /** InsideRun on the suffixes of one text. */
  lemma {:induction false} InsideRunAt(t: string, i: nat, e: nat, oldC: char, newC: char, br: Brackets)
    requires i <= e <= |t| && br.close !in t[i..e]
    ensures Replace(t[i..], oldC, newC, br, true) == Swap(t[i..e], oldC, newC) + Replace(t[e..], oldC, newC, br, true)
    ensures Open(t[i..], br, true) == Open(t[e..], br, true)
    decreases e - i
  {
    if i < e {
      assert t[i..][1..] == t[i + 1..] && t[i] != br.close;
      InsideRunAt(t, i + 1, e, oldC, newC, br);
      assert Swap(t[i..e], oldC, newC) == Swap(t[i..e], oldC, newC)[..1] + Swap(t[i + 1..e], oldC, newC);
    }
  }

  /** Replace steps over an opening character into a pair. */
  lemma OpenStep(t: string, k: nat, oldC: char, newC: char, br: Brackets)
    requires k < |t| && t[k] == br.open
    ensures Replace(t[k..], oldC, newC, br, false) == [br.open] + Replace(t[k + 1..], oldC, newC, br, true)
    ensures Open(t[k..], br, false) == Open(t[k + 1..], br, true)
  {
    assert t[k..][1..] == t[k + 1..];
  }

  /** The closing character after an opening one at k lies before the terminator when the text has one. */
  lemma CloseAfter(b: string, t: string, k: nat, br: Brackets) returns (e: nat)
    requires t == CText(b) && k < |t| && br.close in t[k + 1..]
    ensures IndexFrom(b, k + 1, br.close) == Some(e)
    ensures k < e < |t| && br.close !in t[k + 1..e] && t[e] == br.close
  {
    var i :| k + 1 <= i < |t| && t[i] == br.close;
    assert b[k + 1..][i - k - 1] == br.close;
    e := IndexFrom(b, k + 1, br.close).value;
    assert t[k + 1..e] == b[k + 1..e];
  }

  /** Slices of the buffer before its terminator are slices of its C string. */
  lemma TextSlices(b: string, t: string, i: nat, k: nat, e: nat)
    requires t == CText(b) && i <= k < e <= |t|
    ensures b[k + 1..e] == t[k + 1..e] && b[i..k + 1] == t[i..k] + [t[k]]
  {
    SliceOfPrefix(b, |t|, k + 1, e);
    SliceOfPrefix(b, |t|, i, k + 1);
    assert t[i..k + 1] == t[i..k] + [t[k]];
  }

  /** A slice within a prefix is the same slice of the whole. */
  lemma SliceOfPrefix(b: string, n: nat, lo: nat, hi: nat)
    requires lo <= hi <= n <= |b|
    ensures b[..n][lo..hi] == b[lo..hi]
  {
  }

  /** One round of the code: a pair from k to e replaced, then the rest from e. */
  lemma UnfoldRound(b: string, i: nat, k: nat, e: nat, oldC: char, newC: char, br: Brackets,
                    pre: string, mid: string, rest: string)
    requires i <= |b| && StrChrFrom(b, i, br.open) == Found(k) && IndexFrom(b, k + 1, br.close) == Some(e)
    requires ReplaceFrom(b, e, oldC, newC, br) == Some(rest)
    requires pre == b[i..k + 1] && mid == b[k + 1..e]
    ensures ReplaceFrom(b, i, oldC, newC, br) == Some(pre + Swap(mid, oldC, newC) + rest)
  {
  }

  /** Regrouping of the pieces of one round. */
  lemma Reassemble(p: string, o: string, w: string, r: string, z: string)
    ensures p + o + w + (r + z) == p + (o + (w + r)) + z
  {
  }

  // ---------------------------------------------------------------------
  // DeleteCharacters and CleanString

  /** The characters of s that are not in del, in their order. */
  function Filter(s: string, del: string): (r: string)
    ensures |r| <= |s|
  {
    if |s| == 0 then [] else (if s[0] in del then [] else [s[0]]) + Filter(s[1..], del)
  }

  /** The characters CleanString drops between brackets. */
  const Blanks: string := " \t"

  /**
   * CleanString as intended: the blanks strictly inside bracket pairs are
   * dropped; everything else, the brackets included, is kept in order.
   */
  function Clean(t: string, br: Brackets, inside: bool): (r: string)
    ensures |r| <= |t|
  {
    if |t| == 0 then []
    else
      var drop := inside && t[0] != br.close && t[0] in Blanks;
      (if drop then [] else [t[0]]) + Clean(t[1..], br, Next(t[0], br, inside))
  }

  /** A closing character met outside any pair. */
  predicate Stray(t: string, br: Brackets, inside: bool)
  {
    |t| > 0 && ((!inside && t[0] == br.close) || Stray(t[1..], br, Next(t[0], br, inside)))
  }

  /** The character CleanString reads at index i of a C string: NUL from the terminator on. */
  function At(t: string, i: nat): char
  {
    if i < |t| then t[i] else '\0'
  }

  /** The characters read at indices i to j - 1, the terminator included when j > |t|. */
  function Slot(t: string, i: nat, j: nat): string
    requires i <= j
    decreases j - i
  {
    if i == j then [] else [At(t, i)] + Slot(t, i + 1, j)
  }

  /**
   * CleanString's first inner loop: copy from i until startChar, the end
   * of the string, or a full output buffer.
   */
  function CopyOutside(t: string, br: Brackets, size: nat, i: nat, out: string): (r: (nat, string))
    requires i <= |t| && |out| <= size
    ensures i <= r.0 <= |t| && r.1 == out + t[i..r.0] && |r.1| <= size
    ensures br.open !in t[i..r.0]
    ensures r.0 == |t| || t[r.0] == br.open || |r.1| == size
    decreases |t| - i
  {
    if i < |t| && t[i] != br.open && |out| < size then CopyOutside(t, br, size, i + 1, out + [t[i]])
    else (i, out)
  }

  /** The second inner loop: the first c at or after i, or the end of the string. */
  function ScanClose(t: string, c: char, i: nat): (r: nat)
    requires i <= |t|
    ensures i <= r <= |t| && c !in t[i..r] && (r == |t| || t[r] == c)
    decreases |t| - i
  {
    if i < |t| && t[i] != c then ScanClose(t, c, i + 1) else i
  }

  /** The for loop: copy the non-blank characters read at i..e while the output has room. */
  function CopyPair(t: string, size: nat, i: nat, e: nat, out: string): (r: string)
    requires |out| <= size
    ensures |out| <= |r| <= size
    decreases if i <= e then e + 1 - i else 0
  {
    if i <= e && |out| < size then
      CopyPair(t, size, i + 1, e, if At(t, i) in Blanks then out else out + [At(t, i)])
    else out
  }

  /** The terminator written at the output index, then strcpy; None when that index is past the buffer. */
  function Terminate(out: string, size: nat): Option<string>
  {
    if |out| < size then Some(CText(out)) else None
  }

  /**
   * CleanString as written, from one round of its do-while loop on: the
   * indices startIndex and endIndex, and the output so far. None when the
   * terminator would be written past the output buffer, or when a round
   * makes no progress and the loop never ends.
   */
  function CleanLoop(t: string, br: Brackets, size: nat, start: nat, end: nat, out: string): (r: Option<string>)
    requires start <= |t| && end <= |t| && |out| <= size
    decreases |t| - end
  {
    var (s1, o1) := CopyOutside(t, br, size, start, out);
    var e1 := ScanClose(t, br.close, end);
    if s1 != e1 && s1 < |t| then
      var o2 := CopyPair(t, size, s1, e1, o1);
      if e1 + 1 < |t| then CleanLoop(t, br, size, e1 + 1, e1 + 1, o2) else Terminate(o2, size)
    else if s1 < |t| then None
    else Terminate(o1, size)
  }

  /** CleanString as written on the C string in buffer b, with its SIZE_NOMINAL output buffer. */
  function CleanAsWritten(b: string, br: Brackets): Option<string>
  {
    CleanLoop(CText(b), br, SizeNominal, 0, 0, [])
  }

  /**
   * A closing brace ahead of the first opening one: the code as written
   * copies it twice, where the intended result keeps the text as it is.
   */
  lemma CleanDuplicatesStrayClose(t: string, br: Brackets)
    requires br == Brackets('{', '}') && t == "}}{"
    ensures CleanAsWritten(t, br) == Some("}}}{")
    ensures Clean(t, br, false) == t
  {
    var size := SizeNominal;
    CTextIs(t, 3);
    assert t[0] == '}' && t[1] == '}' && t[2] == '{';
    assert CopyOutside(t, br, size, 2, "}}") == (2, "}}");
    assert "}" + [t[1]] == "}}";
    assert CopyOutside(t, br, size, 1, "}") == (2, "}}");
    assert [] + [t[0]] == "}";
    assert CopyOutside(t, br, size, 0, []) == (2, "}}");
    assert ScanClose(t, br.close, 0) == 0;
    assert "}}" + [t[1]] == "}}}";
    assert CopyOutside(t, br, size, 2, "}}}") == (2, "}}}");
    assert CopyOutside(t, br, size, 1, "}}") == (2, "}}}");
    assert ScanClose(t, br.close, 1) == 1;
    assert ScanClose(t, br.close, 2) == 3;
    assert CopyPair(t, size, 2, 3, "}}}") == "}}}{\0";
    CTextIs("}}}{\0", 4);
    assert "}}}{\0"[..4] == "}}}{";
    assert Terminate("}}}{\0", size) == Some("}}}{");
    assert CleanLoop(t, br, size, 2, 2, "}}}") == Some("}}}{");
    assert CleanLoop(t, br, size, 1, 1, "}}") == Some("}}}{");
    assert t[1..] == "}{" && t[2..] == "{";
    assert Clean(t[2..], br, false) == "{";
    assert Clean(t[1..], br, false) == "}{";
  }

  /** Filter keeps exactly the characters of s that are not in del. */
  lemma {:induction false} FilterKeeps(s: string, del: string)
    ensures forall c :: c in Filter(s, del) <==> c in s && c !in del
  {
    if |s| > 0 {
      FilterKeeps(s[1..], del);
    }
  }

  /** Filter distributes over concatenation, so it keeps the order of what it keeps. */
  lemma {:induction false} FilterConcat(a: string, b: string, del: string)
    ensures Filter(a + b, del) == Filter(a, del) + Filter(b, del)
  {
    if |a| > 0 {
      assert (a + b)[0] == a[0] && (a + b)[1..] == a[1..] + b;
      FilterConcat(a[1..], b, del);
    } else {
      assert a + b == b;
    }
  }

  /** Outside a pair, a run without an opening character is kept whole. */
  lemma {:induction false} CleanOutsideRun(t: string, br: Brackets, i: nat, k: nat)
    requires i <= k <= |t| && br.open !in t[i..k]
    ensures Clean(t[i..], br, false) == t[i..k] + Clean(t[k..], br, false)
    ensures Open(t[i..], br, false) == Open(t[k..], br, false)
    ensures !Stray(t[i..], br, false) ==> br.close !in t[i..k] && !Stray(t[k..], br, false)
    decreases k - i
  {
    if i < k {
      assert t[i..][1..] == t[i + 1..] && t[i] != br.open;
      CleanOutsideRun(t, br, i + 1, k);
      assert t[i..k] == [t[i]] + t[i + 1..k];
    }
  }

  /** Inside a pair, a run without a closing character loses its blanks. */
  lemma {:induction false} CleanInsideRun(t: string, br: Brackets, i: nat, e: nat)
    requires i <= e <= |t| && br.close !in t[i..e]
    ensures Clean(t[i..], br, true) == Filter(t[i..e], Blanks) + Clean(t[e..], br, true)
    ensures Open(t[i..], br, true) == Open(t[e..], br, true)
    ensures Stray(t[i..], br, true) == Stray(t[e..], br, true)
    decreases e - i
  {
    if i < e {
      assert t[i..][0] == t[i] && t[i..][1..] == t[i + 1..] && t[i] != br.close;
      CleanInsideRun(t, br, i + 1, e);
      assert t[i..e][0] == t[i] && t[i..e][1..] == t[i + 1..e];
    }
  }

  /** Clean steps over an opening character into a pair. */
  lemma CleanOpenStep(t: string, br: Brackets, k: nat)
    requires k < |t| && t[k] == br.open && br.open != br.close && br.open !in Blanks
    ensures Clean(t[k..], br, false) == [br.open] + Clean(t[k + 1..], br, true)
    ensures Open(t[k..], br, false) == Open(t[k + 1..], br, true)
    ensures Stray(t[k..], br, false) == Stray(t[k + 1..], br, true)
  {
    assert t[k..][1..] == t[k + 1..];
  }

  /** Clean steps over a closing character out of a pair. */
  lemma CleanCloseStep(t: string, br: Brackets, e: nat)
    requires e < |t| && t[e] == br.close && br.open != br.close
    ensures Clean(t[e..], br, true) == [br.close] + Clean(t[e + 1..], br, false)
    ensures Open(t[e..], br, true) == Open(t[e + 1..], br, false)
    ensures Stray(t[e..], br, true) == Stray(t[e + 1..], br, false)
  {
    assert t[e..][1..] == t[e + 1..];
  }

  /** Reading indices below the terminator reads the string. */
  lemma {:induction false} SlotIn(t: string, i: nat, j: nat)
    requires i <= j <= |t|
    ensures Slot(t, i, j) == t[i..j]
    decreases j - i
  {
    if i < j {
      SlotIn(t, i + 1, j);
      assert t[i..j] == [t[i]] + t[i + 1..j];
    }
  }

  /** Reading up to and including the terminator reads the rest of the string and a NUL. */
  lemma {:induction false} SlotEnd(t: string, i: nat)
    requires i <= |t|
    ensures Slot(t, i, |t| + 1) == t[i..] + ['\0']
    decreases |t| - i
  {
    if i < |t| {
      SlotEnd(t, i + 1);
      assert t[i..] == [t[i]] + t[i + 1..];
    }
  }

  /** The for loop copies the non-blank characters it reads when the output has room for them. */
  lemma {:induction false} CopyPairIs(t: string, size: nat, i: nat, e: nat, out: string)
    requires i <= e + 1 && |out| + |Filter(Slot(t, i, e + 1), Blanks)| <= size
    ensures CopyPair(t, size, i, e, out) == out + Filter(Slot(t, i, e + 1), Blanks)
    decreases e + 1 - i
  {
    if i <= e {
      var c := At(t, i);
      assert Slot(t, i, e + 1) == [c] + Slot(t, i + 1, e + 1);
      FilterConcat([c], Slot(t, i + 1, e + 1), Blanks);
      var next := if c in Blanks then out else out + [c];
      CopyPairIs(t, size, i + 1, e, next);
    }
  }

  /** Brackets CleanString can tell apart from each other and from the blanks it drops. */
  predicate CleanBrackets(br: Brackets)
  {
    br.open != br.close && br.open !in Blanks && br.close !in Blanks
  }

  /** Scanning for c over a run without c gets to the end of the run. */
  lemma {:induction false} ScanSkip(t: string, c: char, i: nat, k: nat)
    requires i <= k <= |t| && c !in t[i..k]
    ensures ScanClose(t, c, i) == ScanClose(t, c, k)
    decreases k - i
  {
    if i < k {
      assert t[i] == t[i..k][0];
      ScanSkip(t, c, i + 1, k);
    }
  }

  /** A pair closed at e: Clean keeps its brackets and drops its blanks. */
  lemma CleanClosedPair(t: string, br: Brackets, s: nat, e: nat)
    requires CleanBrackets(br) && s < e < |t| && t[s] == br.open && t[e] == br.close
    requires br.close !in t[s + 1..e]
    ensures Clean(t[s..], br, false) == [br.open] + Filter(t[s + 1..e], Blanks) + [br.close] + Clean(t[e + 1..], br, false)
    ensures Open(t[s..], br, false) == Open(t[e + 1..], br, false)
    ensures Stray(t[s..], br, false) == Stray(t[e + 1..], br, false)
  {
    CleanOpenStep(t, br, s);
    CleanInsideRun(t, br, s + 1, e);
    CleanCloseStep(t, br, e);
    Chain([br.open], Filter(t[s + 1..e], Blanks), [br.close], Clean(t[e + 1..], br, false),
      Clean(t[s..], br, false), Clean(t[s + 1..], br, true), Clean(t[e..], br, true));
  }

  /** Three steps that each peel a prefix off, put together. */
  lemma Chain(a: string, b: string, c: string, d: string, x: string, y: string, z: string)
    requires x == a + y && y == b + z && z == c + d
    ensures x == a + b + c + d
  {
  }

  /** A pair closed at e: the for loop copies it without its blanks. */
  lemma CopyClosedPair(t: string, br: Brackets, size: nat, s: nat, e: nat, out: string)
    requires CleanBrackets(br) && s < e < |t| && t[s] == br.open && t[e] == br.close
    requires |out| + |Filter(t[s + 1..e], Blanks)| + 2 <= size
    ensures CopyPair(t, size, s, e, out) == out + ([br.open] + Filter(t[s + 1..e], Blanks) + [br.close])
  {
    SlotIn(t, s, e + 1);
    assert t[s..e + 1] == [br.open] + t[s + 1..e] + [br.close];
    FilterConcat([br.open] + t[s + 1..e], [br.close], Blanks);
    FilterConcat([br.open], t[s + 1..e], Blanks);
    CopyPairIs(t, size, s, e, out);
  }

  /** A pair never closed: Clean drops the blanks of the rest of the text. */
  lemma CleanUnclosedPair(t: string, br: Brackets, s: nat)
    requires CleanBrackets(br) && s < |t| && t[s] == br.open && br.close !in t[s + 1..]
    ensures Clean(t[s..], br, false) == [br.open] + Filter(t[s + 1..], Blanks)
    ensures Open(t[s..], br, false) && !Stray(t[s..], br, false)
  {
    CleanOpenStep(t, br, s);
    assert t[s + 1..|t|] == t[s + 1..];
    CleanInsideRun(t, br, s + 1, |t|);
    assert t[|t|..] == [] && Clean(t[|t|..], br, true) == [];
  }

  /** A pair never closed: the for loop copies the rest without its blanks, and the terminator. */
  lemma CopyUnclosedPair(t: string, br: Brackets, size: nat, s: nat, out: string)
    requires CleanBrackets(br) && s < |t| && t[s] == br.open
    requires |out| + |Filter(t[s + 1..], Blanks)| + 2 <= size
    ensures CopyPair(t, size, s, |t|, out) == out + ([br.open] + Filter(t[s + 1..], Blanks) + ['\0'])
  {
    SlotEnd(t, s);
    assert t[s..] + ['\0'] == [br.open] + t[s + 1..] + ['\0'];
    FilterConcat([br.open] + t[s + 1..], ['\0'], Blanks);
    FilterConcat([br.open], t[s + 1..], Blanks);
    CopyPairIs(t, size, s, |t|, out);
  }

  /** A round that meets no opening character copies the rest and ends the loop. */
  lemma LastRound(t: string, br: Brackets, size: nat, i: nat, out: string)
    requires CleanBrackets(br) && '\0' !in t && '\0' !in out && i <= |t|
    requires |out| + |t| - i < size && CopyOutside(t, br, size, i, out).0 == |t|
    requires !Stray(t[i..], br, false)
    ensures CleanLoop(t, br, size, i, i, out) == Some(out + Clean(t[i..], br, false))
  {
    assert t[i..|t|] == t[i..];
    CleanOutsideRun(t, br, i, |t|);
    ScanSkip(t, br.close, i, |t|);
    assert t[|t|..] == [] && Clean(t[|t|..], br, false) == [];
    var o := out + t[i..];
    assert CopyOutside(t, br, size, i, out) == (|t|, o);
    assert o[..|o|] == o;
    CTextIs(o, |o|);
    assert ScanClose(t, br.close, i) == |t|;
    assert Terminate(o, size) == Some(o);
    assert CleanLoop(t, br, size, i, i, out) == Terminate(o, size);
    assert Clean(t[i..], br, false) == t[i..];
  }

  /** One round of the do-while loop that copies a pair and moves past it. */
  lemma PairRound(t: string, br: Brackets, size: nat, i: nat, out: string, s: nat, o: string, e: nat)
    requires i <= |t| && |out| <= size
    requires CopyOutside(t, br, size, i, out).0 == s && CopyOutside(t, br, size, i, out).1 == o && ScanClose(t, br.close, i) == e
    requires s < |t| && s != e
    ensures e + 1 < |t| ==> CleanLoop(t, br, size, i, i, out) == CleanLoop(t, br, size, e + 1, e + 1, CopyPair(t, size, s, e, o))
    ensures e + 1 >= |t| ==> CleanLoop(t, br, size, i, i, out) == Terminate(CopyPair(t, size, s, e, o), size)
  {
  }

  /** What the first inner loop of a round leaves: an opening character or the end of the text. */
  lemma OutsideStep(t: string, br: Brackets, size: nat, i: nat, out: string, s: nat, o: string)
    requires i <= |t| && |out| + |Clean(t[i..], br, false)| < size
    requires CopyOutside(t, br, size, i, out).0 == s && CopyOutside(t, br, size, i, out).1 == o && !Stray(t[i..], br, false)
    ensures s == |t| || t[s] == br.open
    ensures Clean(t[i..], br, false) == t[i..s] + Clean(t[s..], br, false)
    ensures Open(t[i..], br, false) == Open(t[s..], br, false) && !Stray(t[s..], br, false)
    ensures ScanClose(t, br.close, i) == ScanClose(t, br.close, s)
  {
    CleanOutsideRun(t, br, i, s);
    ScanSkip(t, br.close, i, s);
  }

  /** The kept form of a pair that opens at s and closes at e. */
  function PairKept(t: string, br: Brackets, s: nat, e: nat): string
    requires s < e <= |t|
  {
    [br.open] + Filter(t[s + 1..e], Blanks) + [br.close]
  }

  /** A pair that opens at s and closes at e: the loop copies what Clean keeps. */
  lemma PairFacts(t: string, br: Brackets, size: nat, s: nat, e: nat, o: string)
    requires CleanBrackets(br) && '\0' !in t && s < |t| && t[s] == br.open
    requires e == ScanClose(t, br.close, s + 1) && e < |t|
    requires |o| + |Clean(t[s..], br, false)| < size
    ensures '\0' !in PairKept(t, br, s, e)
    ensures Clean(t[s..], br, false) == PairKept(t, br, s, e) + Clean(t[e + 1..], br, false)
    ensures Open(t[s..], br, false) == Open(t[e + 1..], br, false)
    ensures Stray(t[s..], br, false) == Stray(t[e + 1..], br, false)
    ensures CopyPair(t, size, s, e, o) == o + PairKept(t, br, s, e)
  {
    CleanClosedPair(t, br, s, e);
    CopyClosedPair(t, br, size, s, e, o);
    FilterKeeps(t[s + 1..e], Blanks);
  }

  /** A round that copies a closed pair leaves the next round what Clean leaves after the pair. */
  lemma ClosedFacts(t: string, br: Brackets, size: nat, i: nat, out: string, s: nat, o: string, e: nat)
    requires CleanBrackets(br) && '\0' !in t && '\0' !in out && i <= s < |t| && t[s] == br.open
    requires |out| + |Clean(t[i..], br, false)| + (if Open(t[i..], br, false) then 1 else 0) < size
    requires o == out + t[i..s] && Clean(t[i..], br, false) == t[i..s] + Clean(t[s..], br, false)
    requires Open(t[i..], br, false) == Open(t[s..], br, false) && !Stray(t[s..], br, false)
    requires e == ScanClose(t, br.close, s + 1) && e < |t|
    ensures out + Clean(t[i..], br, false) == o + PairKept(t, br, s, e) + Clean(t[e + 1..], br, false)
    ensures '\0' !in o + PairKept(t, br, s, e) && !Stray(t[e + 1..], br, false)
    ensures |o + PairKept(t, br, s, e)| + |Clean(t[e + 1..], br, false)| + (if Open(t[e + 1..], br, false) then 1 else 0) < size
    ensures CopyPair(t, size, s, e, o) == o + PairKept(t, br, s, e)
  {
    PairFacts(t, br, size, s, e, o);
    Regroup(out, t[i..s], PairKept(t, br, s, e), Clean(t[e + 1..], br, false), Clean(t[i..], br, false), Clean(t[s..], br, false));
  }

  /** A round that copies a closed pair, followed by the rounds after it. */
  lemma ClosedRound(t: string, br: Brackets, size: nat, i: nat, out: string, s: nat, o: string, e: nat)
    requires i <= s < |t| && |out| <= size && t[s] == br.open && br.open != br.close
    requires CopyOutside(t, br, size, i, out).0 == s && CopyOutside(t, br, size, i, out).1 == o
    requires ScanClose(t, br.close, i) == ScanClose(t, br.close, s)
    requires e == ScanClose(t, br.close, s + 1) && e < |t|
    requires '\0' !in o + PairKept(t, br, s, e)
    requires |o + PairKept(t, br, s, e)| + |Clean(t[e + 1..], br, false)| + (if Open(t[e + 1..], br, false) then 1 else 0) < size
    requires CopyPair(t, size, s, e, o) == o + PairKept(t, br, s, e)
    requires e + 1 < |t| ==> CleanLoop(t, br, size, e + 1, e + 1, o + PairKept(t, br, s, e)) == Some(o + PairKept(t, br, s, e) + Clean(t[e + 1..], br, false))
    ensures CleanLoop(t, br, size, i, i, out) == Some(o + PairKept(t, br, s, e) + Clean(t[e + 1..], br, false))
  {
    var o2 := o + PairKept(t, br, s, e);
    assert ScanClose(t, br.close, s) == e;
    PairRound(t, br, size, i, out, s, o, e);
    if e + 1 == |t| {
      assert t[e + 1..] == [] && Clean(t[e + 1..], br, false) == [];
      ClosedLastRound(o2, size);
      assert o2 + Clean(t[e + 1..], br, false) == o2;
    }
  }

  /** The last round when the final pair is never closed: the copied terminator ends the text. */
  lemma UnclosedRound(t: string, br: Brackets, size: nat, i: nat, out: string, s: nat, o: string)
    requires CleanBrackets(br) && '\0' !in t && '\0' !in out && i <= s < |t| && t[s] == br.open
    requires |out| + (s - i) + |Clean(t[s..], br, false)| + (if Open(t[s..], br, false) then 1 else 0) < size
    requires CopyOutside(t, br, size, i, out).0 == s && CopyOutside(t, br, size, i, out).1 == o && o == out + t[i..s]
    requires ScanClose(t, br.close, i) == ScanClose(t, br.close, s) && ScanClose(t, br.close, s + 1) == |t|
    requires Clean(t[i..], br, false) == t[i..s] + Clean(t[s..], br, false)
    ensures CleanLoop(t, br, size, i, i, out) == Some(out + Clean(t[i..], br, false))
  {
    var kept := o + ([br.open] + Filter(t[s + 1..], Blanks));
    UnclosedFacts(t, br, size, s, o);
    assert ScanClose(t, br.close, s) == ScanClose(t, br.close, s + 1);
    PairRound(t, br, size, i, out, s, o, |t|);
    assert CleanLoop(t, br, size, i, i, out) == Terminate(kept + ['\0'], size);
    TerminatedLastRound(kept, size);
    assert Clean(t[i..], br, false) == t[i..s] + Clean(t[s..], br, false);
    assert out + Clean(t[i..], br, false) == kept;
    Regroup(out, t[i..s], Clean(t[s..], br, false), [], Clean(t[i..], br, false), Clean(t[s..], br, false));
    assert Clean(t[s..], br, false) + [] == Clean(t[s..], br, false);
  }

  /** A pair never closed: what the loop copies, and what Clean keeps. */
  lemma UnclosedFacts(t: string, br: Brackets, size: nat, s: nat, o: string)
    requires CleanBrackets(br) && '\0' !in t && '\0' !in o && s < |t| && t[s] == br.open
    requires |o| + |Clean(t[s..], br, false)| + (if Open(t[s..], br, false) then 1 else 0) < size
    requires ScanClose(t, br.close, s + 1) == |t|
    ensures Clean(t[s..], br, false) == [br.open] + Filter(t[s + 1..], Blanks)
    ensures CopyPair(t, size, s, |t|, o) == o + ([br.open] + Filter(t[s + 1..], Blanks)) + ['\0']
    ensures '\0' !in o + ([br.open] + Filter(t[s + 1..], Blanks))
    ensures |o + ([br.open] + Filter(t[s + 1..], Blanks))| + 1 < size
  {
    assert t[s + 1..|t|] == t[s + 1..];
    FilterKeeps(t[s + 1..], Blanks);
    CleanUnclosedPair(t, br, s);
    CopyUnclosedPair(t, br, size, s, o);
  }

  /** The last round ends with the terminator the for loop copied. */
  lemma TerminatedLastRound(o: string, size: nat)
    requires '\0' !in o && |o| + 1 < size
    ensures Terminate(o + ['\0'], size) == Some(o)
  {
    assert (o + ['\0'])[..|o|] == o;
    CTextIs(o + ['\0'], |o|);
  }

  /** Regrouping the output of a round: what was copied before the pair, the pair, the rest. */
  lemma Regroup(out: string, a: string, pair: string, rest: string, whole: string, tail: string)
    requires whole == a + tail && tail == pair + rest
    ensures out + whole == (out + a + pair) + rest
  {
  }

  /** The last round ends right after a closed pair. */
  lemma ClosedLastRound(o: string, size: nat)
    requires '\0' !in o && |o| < size
    ensures Terminate(o, size) == Some(o)
  {
    assert o[..|o|] == o;
    CTextIs(o, |o|);
  }

  /**
   * From a round that starts outside any pair, CleanString as written
   * produces what Clean produces, when the brackets are distinct, no
   * closing character is stray and the output buffer has room.
   */
  lemma {:induction false} CleanFrom(t: string, br: Brackets, size: nat, i: nat, out: string)
    requires CleanBrackets(br) && '\0' !in t && '\0' !in out && i <= |t|
    requires !Stray(t[i..], br, false)
    requires |out| + |Clean(t[i..], br, false)| + (if Open(t[i..], br, false) then 1 else 0) < size
    ensures CleanLoop(t, br, size, i, i, out) == Some(out + Clean(t[i..], br, false))
    decreases |t| - i
  {
    var s, o := CopyOutside(t, br, size, i, out).0, CopyOutside(t, br, size, i, out).1;
    OutsideStep(t, br, size, i, out, s, o);
    if s == |t| {
      LastRound(t, br, size, i, out);
    } else {
      var e := ScanClose(t, br.close, s + 1);
      if e < |t| {
        ClosedFacts(t, br, size, i, out, s, o, e);
        if e + 1 < |t| {
          CleanFrom(t, br, size, e + 1, o + PairKept(t, br, s, e));
          ClosedRound(t, br, size, i, out, s, o, e);
        } else {
          ClosedRound(t, br, size, i, out, s, o, e);
        }
      } else {
        UnclosedRound(t, br, size, i, out, s, o);
      }
    }
  }

  /**
   * CleanString as written agrees with Clean on every C string whose
   * brackets are balanced enough (no stray closing character) and whose
   * result fits its buffer.
   */
  lemma CleanAgrees(b: string, br: Brackets)
    requires CleanBrackets(br) && !Stray(CText(b), br, false)
    requires |Clean(CText(b), br, false)| + (if Open(CText(b), br, false) then 1 else 0) < SizeNominal
    ensures CleanAsWritten(b, br) == Some(Clean(CText(b), br, false))
  {
    var t := CText(b);
    assert t[0..] == t;
    assert !Stray(t[0..], br, false);
    assert |Clean(t[0..], br, false)| + (if Open(t[0..], br, false) then 1 else 0) < SizeNominal;
    CleanFrom(t, br, SizeNominal, 0, []);
    assert [] + Clean(t[0..], br, false) == Clean(t, br, false);
    assert CleanAsWritten(b, br) == CleanLoop(t, br, SizeNominal, 0, 0, []);
  }

  /** Without an opening character there is no pair, and Clean keeps the text as it is. */
  lemma {:induction false} CleanNoOpenIdentity(t: string, br: Brackets)
    requires br.open !in t
    ensures Clean(t, br, false) == t
  {
    if |t| > 0 {
      assert br.open !in t[1..] && t[0] != br.open;
      CleanNoOpenIdentity(t[1..], br);
    }
  }

  /** Cleaning twice drops nothing more: blanks dropped do not change which pair a character is in. */
  lemma {:induction false} CleanIdempotent(t: string, br: Brackets, inside: bool)
    ensures Clean(Clean(t, br, inside), br, inside) == Clean(t, br, inside)
  {
    if |t| > 0 {
      var next := Next(t[0], br, inside);
      CleanIdempotent(t[1..], br, next);
      var rest := Clean(t[1..], br, next);
      if inside && t[0] != br.close && t[0] in Blanks {
        assert next == inside;
        assert Clean(t, br, inside) == [] + rest == rest;
      } else {
        var r := [t[0]] + rest;
        assert r[0] == t[0] && r[1..] == rest;
      }
    }
  }

  /** t without the blanks that mask m marks as lying inside a pair. */
  function Sieve(t: string, m: seq<bool>): (r: string)
    requires |m| == |t|
    ensures |r| <= |t|
  {
    if |t| == 0 then [] else (if m[0] && t[0] in Blanks then [] else [t[0]]) + Sieve(t[1..], m[1..])
  }

  /** Clean drops exactly the blanks that lie strictly inside a pair, and keeps the rest in order. */
  lemma {:induction false} CleanBySieve(t: string, br: Brackets, inside: bool)
    ensures Clean(t, br, inside) == Sieve(t, Inside(t, br, inside))
  {
    if |t| > 0 {
      var m := Inside(t, br, inside);
      assert m[0] == (inside && t[0] != br.close) && m[1..] == Inside(t[1..], br, Next(t[0], br, inside));
      CleanBySieve(t[1..], br, Next(t[0], br, inside));
    }
  }

  // ---------------------------------------------------------------------
  // DeleteCharacters

  /** Deleting twice deletes nothing more. */
  lemma {:induction false} FilterIdempotent(s: string, del: string)
    ensures Filter(Filter(s, del), del) == Filter(s, del)
  {
    if |s| > 0 {
      FilterIdempotent(s[1..], del);
      if s[0] !in del {
        var r := [s[0]] + Filter(s[1..], del);
        assert r[0] == s[0] && r[1..] == Filter(s[1..], del);
      } else {
        assert Filter(s, del) == [] + Filter(s[1..], del) == Filter(s[1..], del);
      }
    }
  }

  /** A string without any character of del is left as it is. */
  lemma {:induction false} FilterNothing(s: string, del: string)
    requires forall k :: 0 <= k < |s| ==> s[k] !in del
    ensures Filter(s, del) == s
  {
    if |s| > 0 {
      FilterNothing(s[1..], del);
    }
  }

  /** Reading one more index appends the character read there. */
  lemma {:induction false} SlotSnoc(t: string, i: nat, j: nat)
    requires i <= j
    ensures Slot(t, i, j + 1) == Slot(t, i, j) + [At(t, j)]
    decreases j - i
  {
    if i < j {
      SlotSnoc(t, i + 1, j);
    }
  }

  /**
   * DeleteCharacters as written: the outer loop runs over the string and
   * its terminator while the output has room, the inner loop looks the
   * character up in the characters to delete, and the terminator is then
   * written at the output index. None when that index is past the
   * SIZE_NOMINAL buffer.
   */
  method DeleteCharacters(b: string, del: string) returns (r: Option<string>)
    ensures r.Some? <==> |Filter(CText(b), CText(del))| + 1 < SizeNominal
    ensures r.Some? ==> r.value == Filter(CText(b), CText(del))
  {
    var t := CText(b);
    var d := CText(del);
    var len := |t|;
    var nbChar := |d|;
    var out: string := [];
    var i := 0;
    while i <= len && |out| < SizeNominal
      invariant 0 <= i <= len + 1 && |out| <= SizeNominal
      invariant out == Filter(Slot(t, 0, i), d)
      decreases len + 1 - i
    {
      var c := At(t, i);
      var copy := true;
      var j := 0;
      while j < nbChar && copy
        invariant 0 <= j <= nbChar
        invariant copy <==> forall k :: 0 <= k < j ==> d[k] != c
      {
        if c == d[j] {
          copy := false;
        }
        j := j + 1;
      }
      DeleteStep(t, d, i);
      if copy {
        out := out + [c];
      }
      i := i + 1;
    }
    DeleteExit(t, d, i, out);
    if |out| < SizeNominal {
      r := Some(CText(out));
    } else {
      r := None;
    }
  }

  /** One round of DeleteCharacters' outer loop keeps the character it reads unless it is to be deleted. */
  lemma DeleteStep(t: string, d: string, i: nat)
    ensures Filter(Slot(t, 0, i + 1), d) == Filter(Slot(t, 0, i), d) + (if At(t, i) in d then [] else [At(t, i)])
  {
    SlotSnoc(t, 0, i);
    FilterConcat(Slot(t, 0, i), [At(t, i)], d);
  }

  /**
   * When DeleteCharacters' outer loop stops, either the terminator was
   * copied and there is room for another, or the output buffer is full.
   */
  lemma DeleteExit(t: string, d: string, i: nat, out: string)
    requires '\0' !in t && '\0' !in d && i <= |t| + 1
    requires out == Filter(Slot(t, 0, i), d) && (i == |t| + 1 || |out| == SizeNominal)
    ensures |out| < SizeNominal <==> |Filter(t, d)| + 1 < SizeNominal
    ensures |out| < SizeNominal ==> CText(out) == Filter(t, d)
  {
    SlotEnd(t, 0);
    assert t[0..] == t;
    FilterConcat(t, ['\0'], d);
    if i <= |t| {
      SlotSplit(t, 0, i, |t| + 1);
      FilterConcat(Slot(t, 0, i), Slot(t, i, |t| + 1), d);
    } else {
      var kept := Filter(t, d);
      FilterKeeps(t, d);
      assert out == kept + ['\0'];
      assert out[..|kept|] == kept;
      CTextIs(out, |kept|);
    }
  }

  /**
   * DeleteCharacters as intended: the text without the characters to
   * delete, whenever it fits the SIZE_NOMINAL buffer with its terminator.
   */
  function Delete(b: string, del: string): Option<string>
  {
    var kept := Filter(CText(b), CText(del));
    if |kept| < SizeNominal then Some(kept) else None
  }

  /** The result holds every character of the text that is not to be deleted, and no other. */
  lemma DeleteRemoves(b: string, del: string)
    requires Delete(b, del).Some?
    ensures forall c :: c in Delete(b, del).value <==> c in CText(b) && c !in CText(del)
  {
    FilterKeeps(CText(b), CText(del));
  }

  /** Deleting again from the result changes nothing. */
  lemma DeleteIdempotent(b: string, del: string)
    requires Delete(b, del).Some?
    ensures Delete(Delete(b, del).value, del) == Delete(b, del)
  {
    var kept := Filter(CText(b), CText(del));
    FilterKeeps(CText(b), CText(del));
    assert kept[..|kept|] == kept;
    CTextIs(kept, |kept|);
    FilterIdempotent(CText(b), CText(del));
  }

  /**
   * 1023 characters to keep: they would fit the 1024-byte buffer with their
   * terminator, but DeleteCharacters as written copies the terminator
   * inside its loop and then writes another one at index 1024.
   */
  lemma DeleteFullResultOverruns(b: string, del: string)
    requires |b| == SizeNominal - 1 && del == "{}"
    requires forall k :: 0 <= k < |b| ==> b[k] == 'a'
    ensures |Filter(CText(b), CText(del))| + 1 == SizeNominal
    ensures Delete(b, del) == Some(b)
  {
    assert b[..|b|] == b;
    CTextIs(b, |b|);
    assert del[..2] == del;
    CTextIs(del, 2);
    FilterNothing(b, del);
  }

  /** Reading i..k is reading i..j and then j..k. */
  lemma {:induction false} SlotSplit(t: string, i: nat, j: nat, k: nat)
    requires i <= j <= k
    ensures Slot(t, i, k) == Slot(t, i, j) + Slot(t, j, k)
    decreases j - i
  {
    if i < j {
      SlotSplit(t, i + 1, j, k);
    }
  }

  // ---------------------------------------------------------------------
  // List-argument commands

  /** The elements separated by single commas. */
  function Join(elems: seq<string>): (r: string)
    ensures |elems| == 1 ==> r == elems[0]
  {
    if |elems| == 0 then []
    else if |elems| == 1 then elems[0]
    else elems[0] + "," + Join(elems[1..])
  }

  /** The comma-separated fields of s; a reader's view of a joined list. */
  function Split(s: string): (r: seq<string>)
    ensures |r| >= 1
  {
    if |s| == 0 then [""]
    else
      var rest := Split(s[1..]);
      if s[0] == ',' then [""] + rest else [[s[0]] + rest[0]] + rest[1..]
  }

  /**
   * The command built from a list argument, as written: the method name
   * and " (", then each element followed by a comma unless it is the last,
   * then ")".
   */
  method ListCommand(name: string, elems: seq<string>) returns (cmd: string)
    ensures cmd == name + " (" + Join(elems) + ")"
  {
    cmd := name + " (";
    var i := 0;
    while i < |elems|
      invariant 0 <= i <= |elems|
      invariant cmd == name + " (" + Join(elems[..i]) + (if 0 < i < |elems| then "," else "")
    {
      JoinSnoc(elems[..i], elems[i]);
      assert elems[..i + 1] == elems[..i] + [elems[i]];
      cmd := cmd + elems[i];
      if i + 1 < |elems| {
        cmd := cmd + ",";
      }
      i := i + 1;
    }
    assert elems[..i] == elems;
    cmd := cmd + ")";
  }

  /** Appending one element to a joined list adds a comma and the element. */
  lemma {:induction false} JoinSnoc(elems: seq<string>, e: string)
    ensures Join(elems + [e]) == (if |elems| == 0 then e else Join(elems) + "," + e)
  {
    if |elems| > 1 {
      assert (elems + [e])[1..] == elems[1..] + [e];
      JoinSnoc(elems[1..], e);
    } else if |elems| == 1 {
      assert (elems + [e])[1..] == [e];
    }
  }

  /** Splitting a field without commas that is followed by a comma. */
  lemma {:induction false} SplitField(a: string, b: string)
    requires ',' !in a
    ensures Split(a + "," + b) == [a] + Split(b)
  {
    if |a| == 0 {
      assert a + "," + b == [','] + b;
      assert ([','] + b)[1..] == b;
    } else {
      assert (a + "," + b)[0] == a[0] && (a + "," + b)[1..] == a[1..] + "," + b;
      SplitField(a[1..], b);
      assert [a[0]] + a[1..] == a;
    }
  }

  /** A field without commas splits into itself. */
  lemma {:induction false} SplitNoComma(a: string)
    requires ',' !in a
    ensures Split(a) == [a]
  {
    if |a| > 0 {
      SplitNoComma(a[1..]);
      assert [a[0]] + a[1..] == a;
    }
  }

  /**
   * The joined list splits back into its elements when there is at least
   * one and none contains a comma, so the controller can recover each
   * element of a command built by ListCommand.
   */
  lemma {:induction false} SplitJoin(elems: seq<string>)
    requires |elems| >= 1 && forall k :: 0 <= k < |elems| ==> ',' !in elems[k]
    ensures Split(Join(elems)) == elems
  {
    if |elems| == 1 {
      SplitNoComma(elems[0]);
    } else {
      SplitJoin(elems[1..]);
      SplitField(elems[0], Join(elems[1..]));
      assert [elems[0]] + elems[1..] == elems;
    }
  }
}
