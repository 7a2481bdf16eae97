/**
 The byte-level nesting guard of the wire protocol: a scan that bounds the
 bracket depth of an undecoded frame before the JSON parser sees it.

 The partner of the scan is the JSON value itself. `Print` writes a value the
 way the encoder does (compact separators, the minimal escapes of section 7 of
 RFC 8259), `Depth` is the depth of the tree, and `ScanDecidesDepth` says the
 scan of the printed bytes is exactly a comparison of that depth with 64.
 */
module NestingScan {

  newtype Byte = b: int | 0 <= b < 256

  const QUOTE: Byte := 0x22
  const BACKSLASH: Byte := 0x5C
  const MAX_NESTING_DEPTH := 64

  predicate IsOpener(b: Byte) { b == 0x7B || b == 0x5B }

  predicate IsCloser(b: Byte) { b == 0x7D || b == 0x5D }

  // ---------------------------------------------------------------- the scan

  /** The three variables of the loop, or the rejection it raises. */
  datatype Scan = Rejected | At(depth: int, inString: bool, escaped: bool)

  const START := At(0, false, false)

  function Step(s: Scan, b: Byte): Scan {
    if s.Rejected? then Rejected
    else if s.inString then
      if s.escaped then s.(escaped := false)
      else if b == BACKSLASH then s.(escaped := true)
      else if b == QUOTE then s.(inString := false)
      else s
    else if b == QUOTE then s.(inString := true)
    else if IsOpener(b) then
      if s.depth + 1 > MAX_NESTING_DEPTH then Rejected else s.(depth := s.depth + 1)
    else if IsCloser(b) then s.(depth := s.depth - 1)
    else s
  }

  function ScanFrom(s: Scan, raw: seq<Byte>): Scan
    decreases |raw|
  {
    if raw == [] then s else ScanFrom(Step(s, raw[0]), raw[1..])
  }

  lemma {:induction false} ScanConcat(s: Scan, a: seq<Byte>, b: seq<Byte>)
    ensures ScanFrom(s, a + b) == ScanFrom(ScanFrom(s, a), b)
    decreases |a|
  {
    if a == [] {
      assert a + b == b;
    } else {
      ScanConcat(Step(s, a[0]), a[1..], b);
      assert (a + b)[1..] == a[1..] + b;
    }
  }

  lemma {:induction false} RejectedStays(raw: seq<Byte>)
    ensures ScanFrom(Rejected, raw) == Rejected
    decreases |raw|
  {
    if raw != [] {
      RejectedStays(raw[1..]);
    }
  }

  /**
   The guard as the codec runs it: one pass, stopping at the first opener that
   exceeds the bound.
   */
  method EnsureNestingDepth(raw: seq<Byte>) returns (final: Scan)
    ensures final == ScanFrom(START, raw)
  {
    var depth, inString, escaped := 0, false, false;
    var i := 0;
    assert raw[0..] == raw;
    while i < |raw|
      invariant 0 <= i <= |raw|
      invariant ScanFrom(At(depth, inString, escaped), raw[i..]) == ScanFrom(START, raw)
    {
      var b := raw[i];
      assert raw[i..][1..] == raw[i + 1..];
      if inString {
        if escaped {
          escaped := false;
        } else if b == BACKSLASH {
          escaped := true;
        } else if b == QUOTE {
          inString := false;
        }
      } else if b == QUOTE {
        inString := true;
      } else if IsOpener(b) {
        depth := depth + 1;
        if depth > MAX_NESTING_DEPTH {
          RejectedStays(raw[i + 1..]);
          return Rejected;
        }
      } else if IsCloser(b) {
        depth := depth - 1;
      }
      i := i + 1;
    }
    return At(depth, inString, escaped);
  }

  // -------------------------------------------------------- values and bytes

  /** Bytes a number or a literal name is printed with: no quote, no bracket. */
  predicate IsPlain(b: Byte) {
    b != QUOTE && !IsOpener(b) && !IsCloser(b)
  }

  type Lexeme = s: seq<Byte> | forall i :: 0 <= i < |s| ==> IsPlain(s[i]) witness []

  /** A JSON value; strings are their UTF-8 bytes, scalars their printed form. */
  datatype Json =
    | Scalar(lexeme: Lexeme)
    | Text(bytes: seq<Byte>)
    | Array(items: seq<Json>)
    | Object(members: seq<Member>)

  datatype Member = Member(key: seq<Byte>, value: Json)

  function HexDigit(n: Byte): Byte
    requires n < 16
  {
    if n < 10 then 0x30 + n else 0x57 + n
  }

  /** One byte of a string: the two-byte escapes, \u00XX for other controls, else itself. */
  function Escape(b: Byte): seq<Byte> {
    if b == QUOTE || b == BACKSLASH then [BACKSLASH, b]
    else if b == 0x08 then [BACKSLASH, 0x62]
    else if b == 0x0C then [BACKSLASH, 0x66]
    else if b == 0x0A then [BACKSLASH, 0x6E]
    else if b == 0x0D then [BACKSLASH, 0x72]
    else if b == 0x09 then [BACKSLASH, 0x74]
    else if b < 0x20 then [BACKSLASH, 0x75, 0x30, 0x30, HexDigit(b / 16), HexDigit(b % 16)]
    else [b]
  }

  function EscapeAll(s: seq<Byte>): seq<Byte>
    decreases |s|
  {
    if s == [] then [] else Escape(s[0]) + EscapeAll(s[1..])
  }

  function PrintText(s: seq<Byte>): seq<Byte> {
    [QUOTE] + EscapeAll(s) + [QUOTE]
  }

  function Print(v: Json): seq<Byte> {
    match v
    case Scalar(lexeme) => lexeme
    case Text(bytes) => PrintText(bytes)
    case Array(items) => [0x5B] + PrintItems(items) + [0x5D]
    case Object(members) => [0x7B] + PrintMembers(members) + [0x7D]
  }

  function PrintItems(items: seq<Json>): seq<Byte> {
    if items == [] then []
    else Print(items[0]) + (if |items| > 1 then [0x2C] else []) + PrintItems(items[1..])
  }

  function PrintMembers(members: seq<Member>): seq<Byte> {
    if members == [] then []
    else
      PrintText(members[0].key) + [0x3A] + Print(members[0].value)
      + (if |members| > 1 then [0x2C] else []) + PrintMembers(members[1..])
  }

  function Max(a: nat, b: nat): nat { if a < b then b else a }

  function Depth(v: Json): nat {
    match v
    case Scalar(_) => 0
    case Text(_) => 0
    case Array(items) => 1 + DepthOfItems(items)
    case Object(members) => 1 + DepthOfMembers(members)
  }

  function DepthOfItems(items: seq<Json>): nat {
    if items == [] then 0 else Max(Depth(items[0]), DepthOfItems(items[1..]))
  }

  function DepthOfMembers(members: seq<Member>): nat {
    if members == [] then 0 else Max(Depth(members[0].value), DepthOfMembers(members[1..]))
  }

  // ------------------------------------------------------------- the theorem

  lemma {:induction false} PlainIsInvisible(d: int, s: seq<Byte>)
    requires forall i :: 0 <= i < |s| ==> IsPlain(s[i])
    ensures ScanFrom(At(d, false, false), s) == At(d, false, false)
    decreases |s|
  {
    if s != [] {
      assert IsPlain(s[0]);
      PlainIsInvisible(d, s[1..]);
    }
  }

  /** An escaped byte leaves the scan inside the string, not escaped. */
  lemma EscapeStaysInside(d: int, b: Byte)
    ensures ScanFrom(At(d, true, false), Escape(b)) == At(d, true, false)
  {
    var e, s := Escape(b), At(d, true, false);
    if |e| == 1 {
      assert e[1..] == [];
    } else if |e| == 2 {
      assert e[1..] == [e[1]] && e[1..][1..] == [];
      assert ScanFrom(s, e) == ScanFrom(At(d, true, true), [e[1]]);
    } else {
      assert e[1..] == [0x75, 0x30, 0x30, HexDigit(b / 16), HexDigit(b % 16)];
      assert e[1..][1..] == [0x30, 0x30, HexDigit(b / 16), HexDigit(b % 16)];
      OrdinaryInside(d, e[2..]);
      assert e[1..][1..] == e[2..];
    }
  }

  lemma {:induction false} OrdinaryInside(d: int, s: seq<Byte>)
    requires forall i :: 0 <= i < |s| ==> s[i] != QUOTE && s[i] != BACKSLASH
    ensures ScanFrom(At(d, true, false), s) == At(d, true, false)
    decreases |s|
  {
    if s != [] {
      OrdinaryInside(d, s[1..]);
    }
  }

  lemma {:induction false} EscapesStayInside(d: int, s: seq<Byte>)
    ensures ScanFrom(At(d, true, false), EscapeAll(s)) == At(d, true, false)
    decreases |s|
  {
    if s != [] {
      EscapeStaysInside(d, s[0]);
      EscapesStayInside(d, s[1..]);
      ScanConcat(At(d, true, false), Escape(s[0]), EscapeAll(s[1..]));
    }
  }

  lemma TextIsInvisible(d: int, s: seq<Byte>)
    ensures ScanFrom(At(d, false, false), PrintText(s)) == At(d, false, false)
  {
    var inside := At(d, true, false);
    assert PrintText(s)[1..] == EscapeAll(s) + [QUOTE];
    ScanConcat(inside, EscapeAll(s), [QUOTE]);
    EscapesStayInside(d, s);
    assert ScanFrom(inside, [QUOTE]) == ScanFrom(Step(inside, QUOTE), [QUOTE][1..]);
  }

  /** Where a scan entering at depth `d` stands after `depth` more levels closed again. */
  function After(d: int, depth: nat): Scan {
    if depth == 0 || d + depth <= MAX_NESTING_DEPTH then At(d, false, false) else Rejected
  }

  lemma OpenerScan(d: int, open: Byte, rest: seq<Byte>)
    requires IsOpener(open)
    ensures ScanFrom(At(d, false, false), [open] + rest)
         == if d + 1 > MAX_NESTING_DEPTH then Rejected else ScanFrom(At(d + 1, false, false), rest)
  {
    assert ([open] + rest)[0] == open && ([open] + rest)[1..] == rest;
    RejectedStays(rest);
  }

  lemma CloserScan(d: int, close: Byte)
    requires IsCloser(close)
    ensures ScanFrom(At(d + 1, false, false), [close]) == At(d, false, false)
    ensures ScanFrom(Rejected, [close]) == Rejected
  {
    assert [close][1..] == [];
    RejectedStays([close]);
  }

  lemma BracketedScan(d: int, open: Byte, close: Byte, inner: seq<Byte>, depth: nat)
    requires IsOpener(open) && IsCloser(close)
    requires ScanFrom(At(d + 1, false, false), inner) == After(d + 1, depth)
    ensures ScanFrom(At(d, false, false), [open] + inner + [close]) == After(d, 1 + depth)
  {
    assert [open] + inner + [close] == [open] + (inner + [close]);
    OpenerScan(d, open, inner + [close]);
    ScanConcat(At(d + 1, false, false), inner, [close]);
    CloserScan(d, close);
  }

  lemma SequencedScan(d: int, first: seq<Byte>, firstDepth: nat, comma: bool, rest: seq<Byte>, restDepth: nat)
    requires ScanFrom(At(d, false, false), first) == After(d, firstDepth)
    requires ScanFrom(At(d, false, false), rest) == After(d, restDepth)
    ensures ScanFrom(At(d, false, false), first + (if comma then [0x2C] else []) + rest)
         == After(d, Max(firstDepth, restDepth))
  {
    var here := At(d, false, false);
    var separator: seq<Byte> := if comma then [0x2C] else [];
    ScanConcat(here, first + separator, rest);
    ScanConcat(here, first, separator);
    PlainIsInvisible(d, separator);
    RejectedStays(separator);
    RejectedStays(rest);
  }

  lemma {:induction false} ScanOfPrint(d: int, v: Json)
    ensures ScanFrom(At(d, false, false), Print(v)) == After(d, Depth(v))
    decreases v, 1
  {
    match v
    case Scalar(lexeme) => PlainIsInvisible(d, lexeme);
    case Text(bytes) => TextIsInvisible(d, bytes);
    case Array(items) =>
      ScanOfItems(d + 1, items);
      BracketedScan(d, 0x5B, 0x5D, PrintItems(items), DepthOfItems(items));
    case Object(members) =>
      ScanOfMembers(d + 1, members);
      BracketedScan(d, 0x7B, 0x7D, PrintMembers(members), DepthOfMembers(members));
  }

  lemma {:induction false} ScanOfItems(d: int, items: seq<Json>)
    ensures ScanFrom(At(d, false, false), PrintItems(items)) == After(d, DepthOfItems(items))
    decreases items, 0
  {
    if items != [] {
      ScanOfPrint(d, items[0]);
      ScanOfItems(d, items[1..]);
      SequencedScan(d, Print(items[0]), Depth(items[0]), |items| > 1,
                    PrintItems(items[1..]), DepthOfItems(items[1..]));
    }
  }

  lemma {:induction false} ScanOfMembers(d: int, members: seq<Member>)
    ensures ScanFrom(At(d, false, false), PrintMembers(members)) == After(d, DepthOfMembers(members))
    decreases members, 0
  {
    if members != [] {
      var Member(key, value) := members[0];
      var here := At(d, false, false);
      TextIsInvisible(d, key);
      PlainIsInvisible(d, [0x3A]);
      ScanConcat(here, PrintText(key), [0x3A]);
      ScanOfPrint(d, value);
      ScanConcat(here, PrintText(key) + [0x3A], Print(value));
      ScanOfMembers(d, members[1..]);
      SequencedScan(d, PrintText(key) + [0x3A] + Print(value), Depth(value), |members| > 1,
                    PrintMembers(members[1..]), DepthOfMembers(members[1..]));
    }
  }

  /**
   The guard accepts a printed value exactly when its tree depth is at most 64,
   and an accepting scan ends at depth zero outside any string.
   */
  lemma ScanDecidesDepth(v: Json)
    ensures ScanFrom(START, Print(v)) == if Depth(v) <= MAX_NESTING_DEPTH then START else Rejected
  {
    ScanOfPrint(0, v);
  }
}
