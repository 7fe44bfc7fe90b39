/**
 * The OMS MAXnet driver (drvMAXnetAsyn.cc): its in-place comma-field
 * extraction and the encoder-status pass of the poller built on it, the
 * argument clamping of move, home, jog and stop, and the limit decode.
 * Its status and integer-array replies are read as in OmsFields with
 * MAX_AXES axes at most.
 */
module Maxnet {
  import opened CSemantics
  import opened OmsFields
  import OmsBase

  /** MAXnet_MAX_AXES. */
  const MAX_AXES: nat := 5

  // ---------------------------------------------------------------
  // C strings inside a character buffer
  // ---------------------------------------------------------------

  /** strlen of the C string starting at from: the characters before the first NUL. */
  function CStrLen(buf: string, from: nat): (n: nat)
    requires from <= |buf|
    ensures from + n <= |buf|
    decreases |buf| - from
  {
    if from == |buf| || buf[from] == '\0' then 0 else 1 + CStrLen(buf, from + 1)
  }

  /** strchr(buf + from, c): the first c of the C string starting at from. */
  function StrChr(buf: string, from: nat, c: char): (r: Option<nat>)
    requires from <= |buf| && c != '\0'
    ensures r.Some? ==> from <= r.value < from + CStrLen(buf, from) && buf[r.value] == c
    decreases |buf| - from
  {
    if from == |buf| || buf[from] == '\0' then None
    else if buf[from] == c then Some(from)
    else StrChr(buf, from + 1, c)
  }

  /** The C string from from holds no NUL and ends at a NUL or at the end of the buffer. */
  lemma {:induction false} CStrLenBounds(buf: string, from: nat)
    requires from <= |buf|
    ensures forall k :: from <= k < from + CStrLen(buf, from) ==> buf[k] != '\0'
    ensures from + CStrLen(buf, from) < |buf| ==> buf[from + CStrLen(buf, from)] == '\0'
    decreases |buf| - from
  {
    if from < |buf| && buf[from] != '\0' {
      CStrLenBounds(buf, from + 1);
    }
  }

  /** strchr finds the first c of the C string, and None means the C string has none. */
  lemma {:induction false} StrChrFirst(buf: string, from: nat, c: char)
    requires from <= |buf| && c != '\0'
    ensures StrChr(buf, from, c).Some? ==> forall k :: from <= k < StrChr(buf, from, c).value ==> buf[k] != c
    ensures StrChr(buf, from, c).None? ==> forall k :: from <= k < from + CStrLen(buf, from) ==> buf[k] != c
    decreases |buf| - from
  {
    if from < |buf| && buf[from] != '\0' && buf[from] != c {
      StrChrFirst(buf, from + 1, c);
    }
  }

  /** The C string at the start of the buffer holds no comma. */
  predicate NoComma(buf: string)
  {
    StrChr(buf, 0, ',') == None
  }

  /** A NUL at q with no comma before it leaves no comma in the C string. */
  lemma NulEndsCommas(b: string, q: nat)
    requires q < |b| && b[q] == '\0'
    requires forall k :: 0 <= k < q ==> b[k] != ','
    ensures NoComma(b)
  {
    NoCommaBefore(b, 0, q);
  }

  /** strchr from any from <= q finds no comma when b[q] is NUL and no comma comes before it. */
  lemma {:induction false} NoCommaBefore(b: string, from: nat, q: nat)
    requires from <= q < |b| && b[q] == '\0'
    requires forall k :: from <= k < q ==> b[k] != ','
    ensures StrChr(b, from, ',') == None
    decreases q - from
  {
    if from < q && b[from] != '\0' {
      NoCommaBefore(b, from + 1, q);
    }
  }

  function MinNat(a: nat, b: nat): (r: nat)
    ensures r <= a && r <= b && (r == a || r == b)
  {
    if a < b then a else b
  }

  // ---------------------------------------------------------------
  // getSubstring as written
  // ---------------------------------------------------------------

  /** What the last pass of the loop left in outBuffer: the characters and where the NUL went. */
  datatype Copy = Copy(text: string, terminator: nat)

  /** The loop's result: the counter after it, the last copy, and the input buffer. */
  datatype WalkResult = WalkResult(iterations: nat, copy: Copy, buffer: string)

  /**
   * The loop of getSubstring from pass i, start being where field i
   * begins and end the original end of the string: each pass copies at
   * most outLen characters of the current field, writes the NUL right
   * after them, and overwrites the comma ending the field with NUL. It
   * stops after pass number, when no comma is left, or when the comma was
   * the last character. Later passes read only past the overwritten
   * comma, so the overwrite is applied to the buffer they leave.
   */
  function Walk(buf: string, start: nat, end: nat, i: nat, number: nat, outLen: nat): (r: WalkResult)
    requires start <= |buf| && i <= number
    ensures |r.buffer| == |buf|
    ensures i < r.iterations <= number + 1
    ensures r.copy.terminator == |r.copy.text| <= outLen
    decreases number - i
  {
    match StrChr(buf, start, ',')
    case None =>
      var count := MinNat(CStrLen(buf, start), outLen);
      WalkResult(i + 1, Copy(buf[start..start + count], count), buf)
    case Some(q) =>
      var count := MinNat(q - start, outLen);
      var copy := Copy(buf[start..start + count], count);
      if i == number || q + 1 >= end then WalkResult(i + 1, copy, buf[q := '\0'])
      else
        var later := Walk(buf, q + 1, end, i + 1, number, outLen);
        WalkResult(later.iterations, later.copy, later.buffer[q := '\0'])
  }

  /** The loop leaves the buffer before start alone and only turns commas into NUL. */
  lemma {:induction false} WalkBuffer(buf: string, start: nat, end: nat, i: nat, number: nat, outLen: nat)
    requires start <= |buf| && i <= number
    ensures var r := Walk(buf, start, end, i, number, outLen);
            (forall k :: 0 <= k < start ==> r.buffer[k] == buf[k])
            && (forall k :: 0 <= k < |buf| ==>
                  r.buffer[k] == buf[k] || (buf[k] == ',' && r.buffer[k] == '\0'))
    decreases number - i
  {
    match StrChr(buf, start, ',')
    case None =>
    case Some(q) =>
      if !(i == number || q + 1 >= end) {
        var next, pass := q + 1, i + 1;
        var later := Walk(buf, next, end, pass, number, outLen);
        WalkBuffer(buf, next, end, pass, number, outLen);
        var r := Walk(buf, start, end, i, number, outLen);
        assert r.buffer == later.buffer[q := '\0'];
        assert forall k :: 0 <= k < |buf| && k != q ==> r.buffer[k] == later.buffer[k];
      }
  }

  /** The result of one call: the return value, outBuffer when written, and the input buffer after. */
  datatype SubstringCall = SubstringCall(ret: nat, out: Option<Copy>, buffer: string)

  /**
   * getSubstring of drvMAXnetAsyn.cc, on the caller's buffer: it returns
   * number when the loop got to field number and 0 otherwise, so field 0
   * always reads as a failure. A string shorter than number is refused
   * before anything is written.
   */
  function GetSubstringAsWritten(buf: string, number: nat, outLen: nat): (r: SubstringCall)
    ensures r.ret == 0 || r.ret == number
    ensures number == 0 ==> r.ret == 0
    ensures r.out.None? ==> r.buffer == buf && r.ret == 0
    ensures r.out.Some? ==> r.out.value.terminator == |r.out.value.text| <= outLen
    ensures |r.buffer| == |buf|
    ensures forall k :: 0 <= k < |buf| ==>
              r.buffer[k] == buf[k] || (buf[k] == ',' && r.buffer[k] == '\0')
  {
    var len := CStrLen(buf, 0);
    if len < number then SubstringCall(0, None, buf)
    else
      var w := Walk(buf, 0, len, 0, number, outLen);
      WalkBuffer(buf, 0, len, 0, number, outLen);
      SubstringCall(if w.iterations - 1 == number then number else 0, Some(w.copy), w.buffer)
  }

  /** Once the loop has run, the C string left in the buffer is field 0 alone: it has no comma. */
  lemma WalkLeavesNoComma(buf: string, len: nat, number: nat, outLen: nat)
    ensures NoComma(Walk(buf, 0, len, 0, number, outLen).buffer)
  {
    var w := Walk(buf, 0, len, 0, number, outLen);
    match StrChr(buf, 0, ',')
    case None =>
    case Some(q) =>
      StrChrFirst(buf, 0, ',');
      if !(0 == number || q + 1 >= len) {
        WalkBuffer(buf, q + 1, len, 1, number, outLen);
      }
      NulEndsCommas(w.buffer, q);
  }

  /** On a buffer whose C string has no comma, only field 0 exists: any later field fails, writing nothing to the input. */
  lemma NoCommaFails(buf: string, number: nat, outLen: nat)
    requires NoComma(buf) && number >= 1
    ensures GetSubstringAsWritten(buf, number, outLen).ret == 0
    ensures GetSubstringAsWritten(buf, number, outLen).buffer == buf
  {
  }

  /**
   * The fields reached by the loop: field k exists and is not an empty
   * last field after a comma ending the string (the loop stops on such
   * a comma).
   */
  predicate Reachable(fields: seq<string>, k: nat)
  {
    k < |fields| && !(k >= 1 && k == |fields| - 1 && fields[k] == "")
  }

  /** No NUL from from to the end of the buffer. */
  predicate NulFree(buf: string, from: nat)
    decreases |buf| - from
  {
    from >= |buf| || (buf[from] != '\0' && NulFree(buf, from + 1))
  }

  /** A string without NUL is NUL-free from any point. */
  lemma {:induction false} NulFreeOfText(s: string, from: nat)
    requires !Contains(s, '\0')
    ensures NulFree(s, from)
    decreases |s| - from
  {
    if from < |s| {
      NulFreeOfText(s, from + 1);
    }
  }

  /** NUL-free from start means NUL-free from any later point. */
  lemma {:induction false} NulFreeLater(buf: string, start: nat, m: nat)
    requires start <= m && NulFree(buf, start)
    ensures NulFree(buf, m)
    decreases m - start
  {
    if start < m {
      NulFreeLater(buf, start + 1, m);
    }
  }

  /** On text without NUL, strchr finds what IndexOf finds. */
  lemma {:induction false} StrChrOfText(buf: string, start: nat, c: char)
    requires start <= |buf| && c != '\0'
    requires NulFree(buf, start)
    ensures CStrLen(buf, start) == |buf| - start
    ensures StrChr(buf, start, c)
            == match IndexOf(buf[start..], c) case None => None case Some(j) => Some(start + j)
    decreases |buf| - start
  {
    if start < |buf| {
      var t := buf[start..];
      assert t[0] == buf[start];
      assert t[1..] == buf[start + 1..];
      StrChrOfText(buf, start + 1, c);
    }
  }

  /** What the loop got to pass number with: the text it copied there, or None when it ended earlier. */
  function Reached(w: WalkResult, number: nat): (r: Option<string>)
    ensures r.Some? <==> w.iterations == number + 1
  {
    if w.iterations == number + 1 then Some(w.copy.text) else None
  }

  /** Field k of fields cut to outLen characters when the loop can reach it, None otherwise. */
  function Expected(fields: seq<string>, k: nat, outLen: nat): (r: Option<string>)
    ensures r.Some? <==> Reachable(fields, k)
  {
    if Reachable(fields, k) then Some(OmsBase.Truncated(fields[k], outLen)) else None
  }

  /** The last field: the loop copies it and ends. */
  lemma WalkLastField(buf: string, start: nat, i: nat, number: nat, outLen: nat)
    requires start <= |buf| && i <= number
    requires NulFree(buf, start)
    requires IndexOf(buf[start..], ',') == None
    ensures Reached(Walk(buf, start, |buf|, i, number, outLen), number) == Expected(Split(buf[start..]), number - i, outLen)
  {
    StrChrOfText(buf, start, ',');
    var t := buf[start..];
    assert Split(t) == [t];
    var count := MinNat(|t|, outLen);
    assert Walk(buf, start, |buf|, i, number, outLen).copy.text == buf[start..start + count];
    assert buf[start..start + count] == OmsBase.Truncated(t, outLen);
  }

  /** A field ended by a comma where the loop stops: at pass number, or on a final comma. */
  lemma WalkCommaStop(buf: string, start: nat, j: nat, i: nat, number: nat, outLen: nat)
    requires start <= |buf| && i <= number
    requires NulFree(buf, start)
    requires IndexOf(buf[start..], ',') == Some(j)
    requires i == number || start + j + 1 >= |buf|
    ensures Reached(Walk(buf, start, |buf|, i, number, outLen), number) == Expected(Split(buf[start..]), number - i, outLen)
  {
    StrChrOfText(buf, start, ',');
    var t := buf[start..];
    var rest := t[j + 1..];
    assert Split(t) == [t[..j]] + Split(rest);
    var count := MinNat(j, outLen);
    assert Walk(buf, start, |buf|, i, number, outLen).copy.text == buf[start..start + count];
    assert buf[start..start + count] == OmsBase.Truncated(t[..j], outLen);
    if i != number {
      assert rest == "";
      assert Split(rest) == [""];
    }
  }

  /** Reachability past a first field, when the rest is not a single empty field. */
  lemma ReachableShift(a: string, g: seq<string>, k: nat)
    requires k >= 1 && |g| >= 1 && g != [""]
    ensures Reachable([a] + g, k) <==> Reachable(g, k - 1)
    ensures k - 1 < |g| ==> ([a] + g)[k] == g[k - 1]
  {
    if k == 1 && |g| == 1 {
      assert g == [g[0]];
    }
  }

  /** A pass that finds a comma at q with text after it, before pass number, leaves the outcome to pass i + 1 from q + 1. */
  lemma WalkStep(buf: string, start: nat, q: nat, next: nat, end: nat, i: nat, pass: nat, number: nat, outLen: nat)
    requires start <= |buf| && i < number
    requires StrChr(buf, start, ',') == Some(q) && next == q + 1 && next < end && pass == i + 1
    ensures Reached(Walk(buf, start, end, i, number, outLen), number)
            == Reached(Walk(buf, next, end, pass, number, outLen), number)
  {
  }

  /** On text without NUL, strchr from start stops at the first comma of the text from start. */
  lemma {:induction false} StrChrAtComma(buf: string, start: nat, j: nat)
    requires start <= |buf|
    requires NulFree(buf, start)
    requires IndexOf(buf[start..], ',') == Some(j)
    ensures StrChr(buf, start, ',') == Some(start + j)
    decreases j
  {
    var t := buf[start..];
    assert t[0] == buf[start];
    if j > 0 {
      assert t[1..] == buf[start + 1..];
      StrChrAtComma(buf, start + 1, j - 1);
    }
  }

  /** A text whose first comma is at j splits into the text before it and the fields after it. */
  lemma SplitAtComma(t: string, j: nat)
    requires IndexOf(t, ',') == Some(j)
    ensures Split(t) == [t[..j]] + Split(t[j + 1..])
  {
  }

  /** A non-empty text does not split into a single empty field. */
  lemma SplitNonEmpty(t: string)
    requires |t| >= 1
    ensures Split(t) != [""]
  {
    OmsFields.JoinSplit(t);
  }

  /** Field number - i of the text from start is field number - pass of the text from next, just after its first comma. */
  lemma ContinueExpected(buf: string, start: nat, j: nat, next: nat, i: nat, pass: nat, number: nat, outLen: nat)
    requires start <= |buf| && i < number
    requires IndexOf(buf[start..], ',') == Some(j)
    requires next == start + j + 1 && next < |buf| && pass == i + 1
    ensures Expected(Split(buf[start..]), number - i, outLen)
            == Expected(Split(buf[next..]), number - pass, outLen)
  {
    var t := buf[start..];
    var rest := buf[next..];
    var g := Split(rest);
    SplitAtComma(t, j);
    assert t[j + 1..] == rest;
    assert Split(t) == [t[..j]] + g;
    SplitNonEmpty(rest);
    ExpectedShift(t[..j], g, i, pass, number, outLen);
  }

  /** Field number - i of [a] + g is field number - pass of g, for the loop's purposes, when g is not a single empty field. */
  lemma ExpectedShift(a: string, g: seq<string>, i: nat, pass: nat, number: nat, outLen: nat)
    requires i < number && pass == i + 1 && |g| >= 1 && g != [""]
    ensures Expected([a] + g, number - i, outLen) == Expected(g, number - pass, outLen)
  {
    ReachableShift(a, g, number - i);
  }

  /**
   * On text without NUL the loop from pass i gets to field number
   * exactly when field number - i of the text from start is reachable,
   * and then holds it cut to outLen characters.
   */
  lemma {:induction false} WalkFollowsFields(buf: string, start: nat, i: nat, number: nat, outLen: nat)
    requires start <= |buf| && i <= number
    requires NulFree(buf, start)
    ensures Reached(Walk(buf, start, |buf|, i, number, outLen), number) == Expected(Split(buf[start..]), number - i, outLen)
    decreases number - i
  {
    match IndexOf(buf[start..], ',')
    case None =>
      WalkLastField(buf, start, i, number, outLen);
    case Some(j) =>
      if i == number || start + j + 1 >= |buf| {
        WalkCommaStop(buf, start, j, i, number, outLen);
      } else {
        var next, pass := start + j + 1, i + 1;
        NulFreeLater(buf, start, next);
        WalkFollowsFields(buf, next, pass, number, outLen);
        WalkCommaContinue(buf, start, j, next, i, pass, number, outLen);
      }
  }

  /** A field ended by a comma with text after it: the loop goes on with the next field, from next in pass. */
  lemma WalkCommaContinue(buf: string, start: nat, j: nat, next: nat, i: nat, pass: nat, number: nat, outLen: nat)
    requires start <= |buf| && i < number
    requires NulFree(buf, start)
    requires IndexOf(buf[start..], ',') == Some(j)
    requires next == start + j + 1 && next < |buf| && pass == i + 1
    requires Reached(Walk(buf, next, |buf|, pass, number, outLen), number) == Expected(Split(buf[next..]), number - pass, outLen)
    ensures Reached(Walk(buf, start, |buf|, i, number, outLen), number) == Expected(Split(buf[start..]), number - i, outLen)
  {
    var q := start + j;
    StrChrAtComma(buf, start, j);
    WalkStep(buf, start, q, next, |buf|, i, pass, number, outLen);
    ContinueExpected(buf, start, j, next, i, pass, number, outLen);
  }

  /**
   * getSubstring on an untouched NUL-free string: a non-zero return
   * means field number is reachable, and field 0 or an unreachable field
   * return 0; a reachable field is copied, cut to outLen characters.
   */
  lemma GetSubstringAsWrittenFields(s: string, number: nat, outLen: nat)
    requires !Contains(s, '\0')
    ensures var r := GetSubstringAsWritten(s, number, outLen);
            (r.ret != 0 <==> number >= 1 && Reachable(Split(s), number))
            && (Reachable(Split(s), number) ==>
                  r.out == Some(Copy(OmsBase.Truncated(Split(s)[number], outLen),
                                     |OmsBase.Truncated(Split(s)[number], outLen)|)))
  {
    NulFreeOfText(s, 0);
    StrChrOfText(s, 0, ',');
    assert s[0..] == s;
    OmsBase.FieldCountBound(s);
    WalkFollowsFields(s, 0, 0, number, outLen);
  }

  // ---------------------------------------------------------------
  // The encoder-status pass of MAXnetPoller
  // ---------------------------------------------------------------

  /** sizeof(encBuffer), the buffer the poller passes as outBufferLen. */
  const ENCODER_BUFFER: nat := 7

  /**
   * The encoder pass of the poller over axes i.. on the shared EA reply:
   * an axis with an encoder calls getSubstring on the buffer as earlier
   * calls left it, and its following error is updated only when the call
   * returns non-zero. The result says, per axis, whether it was updated.
   */
  function EncoderPass(buf: string, hasEncoder: seq<bool>, i: nat): (updated: seq<bool>)
    requires i <= |hasEncoder|
    ensures |updated| == |hasEncoder| - i
    decreases |hasEncoder| - i
  {
    if i == |hasEncoder| then []
    else if !hasEncoder[i] then [false] + EncoderPass(buf, hasEncoder, i + 1)
    else
      var c := GetSubstringAsWritten(buf, i, ENCODER_BUFFER);
      [c.ret != 0] + EncoderPass(c.buffer, hasEncoder, i + 1)
  }

  /** Once the C string has lost its commas no later axis is updated. */
  lemma {:induction false} NoCommaNoUpdate(buf: string, hasEncoder: seq<bool>, i: nat)
    requires 1 <= i <= |hasEncoder| && NoComma(buf)
    ensures forall k :: 0 <= k < |EncoderPass(buf, hasEncoder, i)| ==> !EncoderPass(buf, hasEncoder, i)[k]
    decreases |hasEncoder| - i
  {
    if i < |hasEncoder| {
      if hasEncoder[i] {
        NoCommaFails(buf, i, ENCODER_BUFFER);
      }
      NoCommaNoUpdate(buf, hasEncoder, i + 1);
    }
  }

  /** A call that gets past the length check leaves no comma in the C string. */
  lemma CallLeavesNoComma(buf: string, number: nat)
    requires GetSubstringAsWritten(buf, number, ENCODER_BUFFER).out.Some?
    ensures NoComma(GetSubstringAsWritten(buf, number, ENCODER_BUFFER).buffer)
  {
    WalkLeavesNoComma(buf, CStrLen(buf, 0), number, ENCODER_BUFFER);
  }

  /** From axis i >= 1 on, at most one axis of the pass is updated. */
  lemma {:induction false} AtMostOneUpdateFrom(buf: string, hasEncoder: seq<bool>, i: nat)
    requires 1 <= i <= |hasEncoder|
    ensures var u := EncoderPass(buf, hasEncoder, i);
            forall a, b :: 0 <= a < b < |u| ==> !(u[a] && u[b])
    decreases |hasEncoder| - i
  {
    if i < |hasEncoder| {
      var u := EncoderPass(buf, hasEncoder, i);
      if !hasEncoder[i] {
        AtMostOneUpdateFrom(buf, hasEncoder, i + 1);
        assert u == [false] + EncoderPass(buf, hasEncoder, i + 1);
      } else {
        var c := GetSubstringAsWritten(buf, i, ENCODER_BUFFER);
        var rest := EncoderPass(c.buffer, hasEncoder, i + 1);
        assert u == [c.ret != 0] + rest;
        if c.out.None? {
          AtMostOneUpdateFrom(buf, hasEncoder, i + 1);
        } else {
          CallLeavesNoComma(buf, i);
          NoCommaNoUpdate(c.buffer, hasEncoder, i + 1);
          assert forall k :: 1 <= k < |u| ==> !u[k];
        }
      }
    }
  }

  /**
   * The poller as written updates the following error of at most one
   * axis per pass, and of none when axis 0 has an encoder: the first call
   * that runs the loop cuts the shared buffer after field 0, and field 0
   * itself always reads as a failure.
   */
  lemma EncoderPassUpdatesAtMostOne(buf: string, hasEncoder: seq<bool>)
    ensures var u := EncoderPass(buf, hasEncoder, 0);
            (forall a, b :: 0 <= a < b < |u| ==> !(u[a] && u[b]))
            && (|hasEncoder| > 0 && hasEncoder[0] ==> forall k :: 0 <= k < |u| ==> !u[k])
  {
    if |hasEncoder| > 0 {
      var u := EncoderPass(buf, hasEncoder, 0);
      if !hasEncoder[0] {
        AtMostOneUpdateFrom(buf, hasEncoder, 1);
        assert u == [false] + EncoderPass(buf, hasEncoder, 1);
      } else {
        var c := GetSubstringAsWritten(buf, 0, ENCODER_BUFFER);
        CallLeavesNoComma(buf, 0);
        NoCommaNoUpdate(c.buffer, hasEncoder, 1);
        assert u == [false] + EncoderPass(c.buffer, hasEncoder, 1);
      }
    }
  }

  /** Two encoder axes, both reporting 'S': neither gets its following error updated. */
  lemma EncoderPassMissesBothAxes(buf: string, hasEncoder: seq<bool>, f: OmsBase.AxisFlags,
                                  encBuffer: seq<char>)
    requires buf == "AAS,BBS" && hasEncoder == [true, true]
    requires |encBuffer| == OmsBase.ENCODER_FIELD_BUFFER
    ensures EncoderPass(buf, hasEncoder, 0) == [false, false]
    ensures OmsBase.EncoderStage(f, Some(buf), true, 1, encBuffer).flags.followingError
  {
    var c := GetSubstringAsWritten(buf, 0, ENCODER_BUFFER);
    CallLeavesNoComma(buf, 0);
    var later := EncoderPass(c.buffer, hasEncoder, 1);
    NoCommaNoUpdate(c.buffer, hasEncoder, 1);
    assert |later| == 1 && !later[0];
    assert EncoderPass(buf, hasEncoder, 0) == [c.ret != 0] + later;
    SplitTwoAxes(buf);
  }

  /** The encoder reply of two axes splits into their two fields. */
  lemma SplitTwoAxes(s: string)
    requires s == "AAS,BBS"
    ensures Split(s) == ["AAS", "BBS"]
  {
    assert IndexOf(s, ',') == Some(3);
    assert s[..3] == "AAS" && s[4..] == "BBS";
    assert IndexOf("BBS", ',') == None by {
      assert !Contains("BBS", ',');
    }
  }

  /**
   * As written the NUL after the copy goes to index outLen when the
   * field has outLen characters or more, one past a buffer of outLen
   * characters: a seven-character field overruns encBuffer[7].
   */
  lemma TerminatorOverrunsBuffer()
    ensures GetSubstringAsWritten("ABCDEFG", 0, ENCODER_BUFFER).out.Some?
    ensures GetSubstringAsWritten("ABCDEFG", 0, ENCODER_BUFFER).out.value.terminator == ENCODER_BUFFER
  {
    StrChrOfText("ABCDEFG", 0, ',');
    assert "ABCDEFG"[0..] == "ABCDEFG";
    assert IndexOf("ABCDEFG", ',') == None by {
      assert !Contains("ABCDEFG", ',');
    }
  }

  // ---------------------------------------------------------------
  // Argument clamping of the motion commands
  // ---------------------------------------------------------------

  /** Largest |position| in steps a move accepts. */
  const MAX_POSITION: int := 67000000
  const MAX_MOVE_VELOCITY: int := 4000000
  const MAX_HOME_VELOCITY: int := 1000000
  const MAX_ACCELERATION: int := 8000000
  /** The acceleration stop falls back to when asked for less than one step/s². */
  const DEFAULT_STOP_ACCELERATION: int := 200000

  /** The arguments of "AC; VB; VL; MA|MR; GO". */
  datatype MoveCommand = MoveCommand(acceleration: int, baseVelocity: int, velocity: int,
                                     relative: bool, position: int)

  /** As written: (epicsInt32)(position + 0.5), which rounds negative positions toward zero. */
  function MovePositionAsWritten(position: real): (r: int)
    ensures position >= -0.5 ==> r as real <= position + 0.5 < r as real + 1.0
  {
    Trunc(position + 0.5)
  }

  /** The step a position rounds to: the nearest integer. */
  function MovePosition(position: real): (r: int)
    ensures position - 0.5 <= r as real <= position + 0.5
  {
    Nint(position)
  }

  /** Both agree on non-negative positions; at -2.7 the source sends -2, not -3. */
  lemma MoveRoundingAsWritten(position: real)
    ensures position > 0.0 ==> MovePositionAsWritten(position) == MovePosition(position)
    ensures MovePositionAsWritten(-2.7) == -2 && MovePosition(-2.7) == -3
  {
    assert Trunc(-2.7 + 0.5) == -2;
    assert Trunc(-2.7 - 0.5) == -3;
  }

  /** |acceleration| as an integer, within [1, MAX_ACCELERATION]. */
  function MoveAcceleration(acceleration: real): (r: int)
    ensures 1 <= r <= MAX_ACCELERATION
    ensures 1 <= IAbs(Trunc(acceleration)) <= MAX_ACCELERATION ==> r == IAbs(Trunc(acceleration))
  {
    Clamp(IAbs(Trunc(acceleration)), 1, MAX_ACCELERATION)
  }

  /** The command sent for a position already converted to whole steps, or None when out of range. */
  function MoveWithSteps(pos: int, relative: bool, minVelocity: real, maxVelocity: real,
                         acceleration: real): (r: Option<MoveCommand>)
    ensures r.None? <==> IAbs(pos) > MAX_POSITION
    ensures r.Some? ==> r.value.position == pos && r.value.relative == relative
  {
    if IAbs(pos) > MAX_POSITION then None
    else
      var velo := Clamp(Trunc(maxVelocity + 0.5), 1, MAX_MOVE_VELOCITY);
      var base := Clamp(Trunc(minVelocity + 0.5), 0, velo - 1);
      Some(MoveCommand(MoveAcceleration(acceleration), base, velo, relative, pos))
  }

  /**
   * motorAxisMove as written: the position goes out as
   * (epicsInt32)(position + 0.5), and the move is refused (nothing sent)
   * when that step is beyond 67000000 in magnitude; otherwise the velocity
   * within [1, 4000000], the base velocity within [0, velocity - 1] and
   * the acceleration within [1, 8000000].
   */
  function Move(position: real, relative: bool, minVelocity: real, maxVelocity: real,
                acceleration: real): (r: Option<MoveCommand>)
    ensures r.None? <==> IAbs(MovePositionAsWritten(position)) > MAX_POSITION
    ensures r.Some? ==>
              var m := r.value;
              m.position == MovePositionAsWritten(position) && m.relative == relative
              && 1 <= m.velocity <= MAX_MOVE_VELOCITY
              && 0 <= m.baseVelocity < m.velocity
              && 1 <= m.acceleration <= MAX_ACCELERATION
    ensures r.Some? && 1 <= Trunc(maxVelocity + 0.5) <= MAX_MOVE_VELOCITY ==>
              r.value.velocity == Trunc(maxVelocity + 0.5)
    ensures r.Some? && 0 <= Trunc(minVelocity + 0.5) < r.value.velocity ==>
              r.value.baseVelocity == Trunc(minVelocity + 0.5)
  {
    MoveWithSteps(MovePositionAsWritten(position), relative, minVelocity, maxVelocity, acceleration)
  }

  /** motorAxisMove with the position rounded to the nearest step, as evidently intended. */
  function MoveIntended(position: real, relative: bool, minVelocity: real, maxVelocity: real,
                        acceleration: real): (r: Option<MoveCommand>)
    ensures r.None? <==> IAbs(MovePosition(position)) > MAX_POSITION
    ensures r.Some? ==>
              position - 0.5 <= r.value.position as real <= position + 0.5
              && r.value.relative == relative
  {
    MoveWithSteps(MovePosition(position), relative, minVelocity, maxVelocity, acceleration)
  }

  /**
   * The two moves send the same command for every positive position and
   * differ only in the step; at -2.7 the source sends -2 where the nearest
   * step is -3, and at -67000000.7 it accepts a move the intended rounding
   * refuses.
   */
  lemma MoveVersionsAgree(position: real, relative: bool, minVelocity: real, maxVelocity: real,
                          acceleration: real)
    ensures position > 0.0 ==>
              Move(position, relative, minVelocity, maxVelocity, acceleration)
              == MoveIntended(position, relative, minVelocity, maxVelocity, acceleration)
    ensures var a := Move(position, relative, minVelocity, maxVelocity, acceleration);
            var b := MoveIntended(position, relative, minVelocity, maxVelocity, acceleration);
            a.Some? && b.Some? ==> a.value.(position := b.value.position) == b.value
    ensures Move(-2.7, relative, minVelocity, maxVelocity, acceleration).value.position == -2
    ensures MoveIntended(-2.7, relative, minVelocity, maxVelocity, acceleration).value.position == -3
    ensures Move(-67000000.7, relative, minVelocity, maxVelocity, acceleration).Some?
    ensures MoveIntended(-67000000.7, relative, minVelocity, maxVelocity, acceleration).None?
  {
    MoveRoundingAsWritten(position);
    assert Trunc(-67000000.7 + 0.5) == -67000000;
    assert Nint(-67000000.7) == -67000001;
  }

  /** The arguments of "AC; VL; HR|HM; MA0 GO". */
  datatype HomeCommand = HomeCommand(acceleration: int, velocity: int, search: string)

  /** As written the search command is direction[forwards]: only 0 and 1 index the table. */
  function HomeSearchAsWritten(forwards: int): (r: Option<string>)
    ensures r.Some? <==> forwards == 0 || forwards == 1
  {
    if forwards == 0 then Some("HR") else if forwards == 1 then Some("HM") else None
  }

  /** The search command selected by the normalised flag fw: HM forwards, HR in reverse. */
  function HomeSearch(forwards: int): (r: string)
    ensures r == "HM" <==> forwards != 0
    ensures r == "HR" <==> forwards == 0
  {
    if forwards != 0 then "HM" else "HR"
  }

  /** The two agree on 0 and 1; forwards = 2 reads past the two-entry table as written. */
  lemma HomeSearchAgrees(forwards: int)
    ensures forwards == 0 || forwards == 1 ==> HomeSearchAsWritten(forwards) == Some(HomeSearch(forwards))
    ensures HomeSearchAsWritten(2).None? && HomeSearch(2) == "HM"
  {
  }

  /** motorAxisHome: the velocity truncated into [1, 1000000], the acceleration as for a move. */
  function Home(maxVelocity: real, acceleration: real, forwards: int): (r: HomeCommand)
    ensures 1 <= r.velocity <= MAX_HOME_VELOCITY
    ensures 1 <= Trunc(maxVelocity) <= MAX_HOME_VELOCITY ==> r.velocity == Trunc(maxVelocity)
    ensures 1 <= r.acceleration <= MAX_ACCELERATION
    ensures r.search == "HM" <==> forwards != 0
  {
    HomeCommand(MoveAcceleration(acceleration), Clamp(Trunc(maxVelocity), 1, MAX_HOME_VELOCITY),
                HomeSearch(forwards))
  }

  /** The arguments of "AC; JG". */
  datatype JogCommand = JogCommand(acceleration: int, velocity: int)

  /**
   * motorAxisVelocityMove: the signed velocity truncated into
   * [-4000000, 4000000]; the acceleration truncated (not made positive)
   * into [1, 8000000].
   */
  function VelocityMove(velocity: real, acceleration: real): (r: JogCommand)
    ensures -MAX_MOVE_VELOCITY <= r.velocity <= MAX_MOVE_VELOCITY
    ensures -MAX_MOVE_VELOCITY <= Trunc(velocity) <= MAX_MOVE_VELOCITY ==> r.velocity == Trunc(velocity)
    ensures (r.velocity < 0 ==> velocity < 0.0) && (r.velocity > 0 ==> velocity > 0.0)
    ensures 1 <= r.acceleration <= MAX_ACCELERATION
    ensures acceleration < 1.0 ==> r.acceleration == 1
  {
    JogCommand(Clamp(Trunc(acceleration), 1, MAX_ACCELERATION),
               Clamp(Trunc(velocity), -MAX_MOVE_VELOCITY, MAX_MOVE_VELOCITY))
  }

  /**
   * motorAxisStop: |acceleration| rounded, capped at 8000000, and
   * replaced by 200000 when it rounds below 1.
   */
  function StopAcceleration(acceleration: real): (r: int)
    ensures 1 <= r <= MAX_ACCELERATION
    ensures Abs(acceleration) < 0.5 ==> r == DEFAULT_STOP_ACCELERATION
    ensures Abs(acceleration) >= 0.5 ==>
              r == if Nint(Abs(acceleration)) > MAX_ACCELERATION then MAX_ACCELERATION
                   else Nint(Abs(acceleration))
  {
    var acc := Trunc(Abs(acceleration) + 0.5);
    var capped := if acc > MAX_ACCELERATION then MAX_ACCELERATION else acc;
    if capped < 1 then DEFAULT_STOP_ACCELERATION else capped
  }

  // ---------------------------------------------------------------
  // Limit switches
  // ---------------------------------------------------------------

  /** The QL bit of the low limit of axis i. */
  function LowLimitBit(i: nat): (b: nat)
    requires i < MAX_AXES
    ensures b < 32
  {
    i
  }

  /** The QL bit of the high limit of axis i. */
  function HighLimitBit(i: nat): (b: nat)
    requires i < MAX_AXES
    ensures b < 32 && b == LowLimitBit(i) + 8
  {
    i + 8
  }

  /** MAXnet's five axes read the same bits as the first five axes of the asyn OMS driver, all distinct. */
  lemma LimitBitsAgreeWithOms(i: nat, j: nat)
    requires i < MAX_AXES && j < MAX_AXES
    ensures LowLimitBit(i) == OmsBase.LowLimitBit(i) && HighLimitBit(i) == OmsBase.HighLimitBit(i)
    ensures i != j ==> LowLimitBit(i) != LowLimitBit(j) && LowLimitBit(i) != HighLimitBit(j)
  {
  }

  /** The low and high limit switches of axis i, each inverted when limitInvert is set. */
  function Limits(limitFlags: bv32, i: nat, limitInvert: bool): (r: (bool, bool))
    requires i < MAX_AXES
    ensures r.0 <==> Bit(limitFlags, LowLimitBit(i)) != limitInvert
    ensures r.1 <==> Bit(limitFlags, HighLimitBit(i)) != limitInvert
  {
    (Bit(limitFlags, i) != limitInvert, Bit(limitFlags, i + 8) != limitInvert)
  }

  // ---------------------------------------------------------------
  // Done/moving decision of the poller
  // ---------------------------------------------------------------

  /** What the MAXnet poller keeps per axis for its done/moving decision. */
  datatype Motion = Motion(done: bool, moving: bool, moveDelay: nat)

  /** Polls a moving axis may read zero velocity before the poller declares it done. */
  const STALL_POLLS: nat := 5

  /**
   * The MAXnet poller's decision for axis i: 'D' in its status field ends
   * the motion; a zero velocity ends the motion of a moving axis on its
   * fifth stalled poll; any other velocity means moving. Unlike the OMS
   * base poller it has no limit ('L') stop and never raises a problem.
   */
  function MotionStep(m: Motion, status: string, i: nat, velocity: int): (r: Motion)
    ensures OmsBase.StatusChar(status, i, 1) == 'D' ==> r == Motion(true, false, 0)
    ensures OmsBase.StatusChar(status, i, 1) != 'D' && velocity != 0 ==> r == Motion(false, true, 0)
    ensures OmsBase.StatusChar(status, i, 1) != 'D' && velocity == 0 && !m.moving ==> r == m
    ensures OmsBase.StatusChar(status, i, 1) != 'D' && velocity == 0 && m.moving ==>
              if m.moveDelay + 1 >= STALL_POLLS then r == Motion(true, false, 0)
              else r == m.(moveDelay := m.moveDelay + 1)
  {
    if OmsBase.StatusChar(status, i, 1) == 'D' then Motion(true, false, 0)
    else if velocity == 0 then
      if !m.moving then m
      else if m.moveDelay + 1 >= STALL_POLLS then Motion(true, false, 0)
      else m.(moveDelay := m.moveDelay + 1)
    else Motion(false, true, 0)
  }

  /** n polls of axis i with the same status and a zero velocity. */
  function RepeatStalled(m: Motion, status: string, i: nat, n: nat): Motion
    decreases n
  {
    if n == 0 then m else RepeatStalled(MotionStep(m, status, i, 0), status, i, n - 1)
  }

  /** Without 'D', a moving axis stays moving for n < STALL_POLLS stalled polls, counting them. */
  lemma {:induction false} StallCounted(m: Motion, status: string, i: nat, n: nat)
    requires OmsBase.StatusChar(status, i, 1) != 'D'
    requires m.moving && m.moveDelay + n < STALL_POLLS
    ensures RepeatStalled(m, status, i, n) == m.(moveDelay := m.moveDelay + n)
    decreases n
  {
    if n > 0 {
      StallCounted(MotionStep(m, status, i, 0), status, i, n - 1);
    }
  }

  /**
   * A moving axis that stops without 'D' is declared done on its fifth
   * stalled poll, and not before.
   */
  lemma StalledDoneOnFifthPoll(m: Motion, status: string, i: nat)
    requires OmsBase.StatusChar(status, i, 1) != 'D' && m.moving && m.moveDelay == 0
    ensures RepeatStalled(m, status, i, STALL_POLLS - 1).moving
    ensures RepeatStalled(m, status, i, STALL_POLLS) == Motion(true, false, 0)
  {
    StallCounted(m, status, i, STALL_POLLS - 1);
    var before := RepeatStalled(m, status, i, STALL_POLLS - 1);
    RepeatStalledLast(m, status, i, STALL_POLLS - 1);
    assert RepeatStalled(m, status, i, STALL_POLLS) == MotionStep(before, status, i, 0);
  }

  lemma {:induction false} RepeatStalledLast(m: Motion, status: string, i: nat, n: nat)
    ensures RepeatStalled(m, status, i, n + 1) == MotionStep(RepeatStalled(m, status, i, n), status, i, 0)
    decreases n
  {
    if n > 0 {
      RepeatStalledLast(MotionStep(m, status, i, 0), status, i, n - 1);
    }
  }

  /**
   * The MAXnet and OMS base pollers decide done and moving alike on 'D',
   * on a nonzero velocity and for an axis that is not moving; for a
   * stalled moving axis on a limit ('L'), the OMS base poller stops at
   * once, while MAXnet keeps it moving until its fifth stalled poll.
   */
  lemma MotionAgreesWithOms(f: OmsBase.AxisFlags, r: OmsBase.PollReplies, i: nat)
    requires r.velocities.Some? && i < |r.velocities.value|
    ensures var g := OmsBase.MotionStage(f, r, i);
            var n := MotionStep(Motion(f.done, f.moving, f.moveDelay), r.status, i, r.velocities.value[i]);
            (OmsBase.StatusChar(r.status, i, 1) == 'D' || r.velocities.value[i] != 0 || !f.moving)
              ==> n.done == g.done && n.moving == g.moving && n.moveDelay == g.moveDelay
    ensures var g := OmsBase.MotionStage(f, r, i);
            var n := MotionStep(Motion(f.done, f.moving, f.moveDelay), r.status, i, r.velocities.value[i]);
            (OmsBase.StatusChar(r.status, i, 1) != 'D' && r.velocities.value[i] == 0
             && f.moving && !f.done && f.moveDelay + 1 < STALL_POLLS && OmsBase.StatusChar(r.status, i, 2) == 'L')
              ==> g.done && !g.moving && n.moving && !n.done
  {
  }
}
