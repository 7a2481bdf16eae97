/**
 Splitting one migration file into statements at the semicolons where the
 database engine calls the text so far a complete statement.
 */
module MigrationStatements {
  import opened Wrappers

  /** The whitespace that Python's strip removes, by code point. */
  predicate Blank(c: char) {
    var n := c as int;
    || 0x09 <= n <= 0x0D || 0x1C <= n <= 0x20 || n == 0x85 || n == 0xA0 || n == 0x1680
    || 0x2000 <= n <= 0x200A || n == 0x2028 || n == 0x2029 || n == 0x202F || n == 0x205F || n == 0x3000
  }

  function StripLeft(s: string): string
    decreases |s|
  {
    if s != "" && Blank(s[0]) then StripLeft(s[1..]) else s
  }

  function StripRight(s: string): string
    decreases |s|
  {
    if s != "" && Blank(s[|s| - 1]) then StripRight(s[..|s| - 1]) else s
  }

  function Strip(s: string): string {
    StripRight(StripLeft(s))
  }

  predicate AllBlank(s: string) {
    forall i :: 0 <= i < |s| ==> Blank(s[i])
  }

  function Join(pieces: seq<string>): string
    decreases |pieces|
  {
    if pieces == [] then "" else Join(pieces[..|pieces| - 1]) + pieces[|pieces| - 1]
  }

  /** A piece ends at the first semicolon whose prefix the engine accepts. */
  ghost predicate Minimal(piece: string, complete: string -> bool) {
    && piece != "" && piece[|piece| - 1] == ';' && complete(piece)
    && forall k :: 0 <= k < |piece| - 1 && piece[k] == ';' ==> !complete(piece[..k + 1])
  }

  function NonEmptyStrips(pieces: seq<string>): seq<string>
    decreases |pieces|
  {
    if pieces == [] then []
    else
      NonEmptyStrips(pieces[..|pieces| - 1])
      + (var last := Strip(pieces[|pieces| - 1]); if last == "" then [] else [last])
  }

  /** How a text falls apart: complete pieces, then a rest with no complete piece in it. */
  ghost predicate SplitsInto(sql: string, complete: string -> bool, pieces: seq<string>, rest: string) {
    && sql == Join(pieces) + rest
    && (forall i :: 0 <= i < |pieces| ==> Minimal(pieces[i], complete))
    && (forall k :: 0 <= k < |rest| && rest[k] == ';' ==> !complete(rest[..k + 1]))
  }

  /** The pieces found before `index`: they spell out the text up to `start`, and none was missed. */
  ghost predicate Scanned(sql: string, complete: string -> bool, start: nat, index: nat, pieces: seq<string>) {
    && start <= index <= |sql|
    && sql[..start] == Join(pieces)
    && (forall i :: 0 <= i < |pieces| ==> Minimal(pieces[i], complete))
    && (forall k :: start <= k < index && sql[k] == ';' ==> !complete(sql[start..k + 1]))
  }

  /** Cutting at a semicolon that completes the candidate. */
  lemma CutKeepsScan(sql: string, complete: string -> bool, start: nat, n: nat, pieces: seq<string>)
    requires 0 < n <= |sql| && Scanned(sql, complete, start, n - 1, pieces)
    requires sql[n - 1] == ';' && complete(sql[start..n])
    ensures Scanned(sql, complete, n, n, pieces + [sql[start..n]])
  {
    var cut := sql[start..n];
    CutIsMinimal(sql, complete, start, n);
    assert (pieces + [cut])[..|pieces|] == pieces;
    assert sql[..n] == sql[..start] + cut;
  }

  lemma CutIsMinimal(sql: string, complete: string -> bool, start: nat, n: nat)
    requires start < n <= |sql| && sql[n - 1] == ';' && complete(sql[start..n])
    requires forall k :: start <= k < n - 1 && sql[k] == ';' ==> !complete(sql[start..k + 1])
    ensures Minimal(sql[start..n], complete)
  {
    var cut := sql[start..n];
    forall k | 0 <= k < |cut| - 1 && cut[k] == ';' ensures !complete(cut[..k + 1]) {
      assert cut[..k + 1] == sql[start..start + k + 1] && sql[start + k] == ';';
    }
  }

  /** Passing a character that completes nothing. */
  lemma PassKeepsScan(sql: string, complete: string -> bool, start: nat, n: nat, pieces: seq<string>)
    requires 0 < n <= |sql| && Scanned(sql, complete, start, n - 1, pieces)
    requires sql[n - 1] == ';' ==> !complete(sql[start..n])
    ensures Scanned(sql, complete, start, n, pieces)
  {
  }

  lemma ScanEnds(sql: string, complete: string -> bool, start: nat, pieces: seq<string>)
    requires Scanned(sql, complete, start, |sql|, pieces)
    ensures SplitsInto(sql, complete, pieces, sql[start..])
  {
    var rest := sql[start..];
    forall k | 0 <= k < |rest| && rest[k] == ';' ensures !complete(rest[..k + 1]) {
      assert rest[..k + 1] == sql[start..start + k + 1];
    }
    assert sql == sql[..start] + rest;
  }

  /** What the splitter answers for the one way the text falls apart. */
  ghost predicate Answers(sql: string, complete: string -> bool, r: Result<seq<string>, string>) {
    exists pieces, rest ::
      && SplitsInto(sql, complete, pieces, rest)
      && r == if Strip(rest) == "" then Ok(NonEmptyStrips(pieces)) else Err(Strip(rest))
  }

  lemma ScanAnswers(sql: string, complete: string -> bool, start: nat, pieces: seq<string>)
    requires Scanned(sql, complete, start, |sql|, pieces)
    ensures var rest := Strip(sql[start..]); Answers(sql, complete, if rest != "" then Err(rest) else Ok(NonEmptyStrips(pieces)))
  {
    ScanEnds(sql, complete, start, pieces);
    assert SplitsInto(sql, complete, pieces, sql[start..]);
  }

  /** Where the scan stands: the start of the open candidate, and the pieces cut off before it. */
  datatype Progress = Progress(start: nat, pieces: seq<string>)

  function ScanTo(sql: string, complete: string -> bool, n: nat): (p: Progress)
    requires n <= |sql|
    ensures p.start <= n
    decreases n
  {
    if n == 0 then Progress(0, [])
    else
      var p := ScanTo(sql, complete, n - 1);
      var candidate := sql[p.start..n];
      if sql[n - 1] == ';' && complete(candidate) then Progress(n, p.pieces + [candidate]) else p
  }

  lemma ScanToNext(sql: string, complete: string -> bool, index: nat)
    requires index < |sql|
    ensures var p := ScanTo(sql, complete, index);
            var candidate := sql[p.start..index + 1];
            ScanTo(sql, complete, index + 1)
            == if sql[index] == ';' && complete(candidate) then Progress(index + 1, p.pieces + [candidate]) else p
  {
  }

  lemma {:induction false} ScanToScans(sql: string, complete: string -> bool, n: nat)
    requires n <= |sql|
    ensures var p := ScanTo(sql, complete, n); Scanned(sql, complete, p.start, n, p.pieces)
    decreases n
  {
    if n > 0 {
      var p := ScanTo(sql, complete, n - 1);
      ScanToScans(sql, complete, n - 1);
      if sql[n - 1] == ';' && complete(sql[p.start..n]) {
        CutKeepsScan(sql, complete, p.start, n, p.pieces);
      } else {
        PassKeepsScan(sql, complete, p.start, n, p.pieces);
      }
    }
  }

  lemma OneMorePiece(pieces: seq<string>, piece: string)
    ensures NonEmptyStrips(pieces + [piece]) == NonEmptyStrips(pieces) + if Strip(piece) == "" then [] else [Strip(piece)]
  {
    assert (pieces + [piece])[..|pieces|] == pieces;
  }

  /**
   The splitter. No character of the file is lost or moved, and a rest that is
   more than blank is an error.
   */
  method MigrationStatements(sql: string, complete: string -> bool) returns (r: Result<seq<string>, string>)
    ensures Answers(sql, complete, r)
  {
    var start := 0;
    var statements: seq<string> := [];
    for index := 0 to |sql|
      invariant start == ScanTo(sql, complete, index).start
      invariant statements == NonEmptyStrips(ScanTo(sql, complete, index).pieces)
    {
      ScanToNext(sql, complete, index);
      var candidate := sql[start..index + 1];
      if sql[index] == ';' && complete(candidate) {
        OneMorePiece(ScanTo(sql, complete, index).pieces, candidate);
        var statement := Strip(candidate);
        if statement != "" {
          statements := statements + [statement];
        }
        start := index + 1;
      }
    }
    ScanToScans(sql, complete, |sql|);
    ScanAnswers(sql, complete, start, ScanTo(sql, complete, |sql|).pieces);
    var remainder := Strip(sql[start..]);
    return if remainder != "" then Err(remainder) else Ok(statements);
  }

  lemma {:induction false} StripLeftDrops(s: string) returns (blanks: string)
    ensures s == blanks + StripLeft(s) && AllBlank(blanks)
    decreases |s|
  {
    blanks := "";
    if s != "" && Blank(s[0]) {
      var more := StripLeftDrops(s[1..]);
      blanks := [s[0]] + more;
    }
  }

  lemma {:induction false} StripRightDrops(s: string) returns (blanks: string)
    ensures s == StripRight(s) + blanks && AllBlank(blanks)
    decreases |s|
  {
    blanks := "";
    if s != "" && Blank(s[|s| - 1]) {
      var more := StripRightDrops(s[..|s| - 1]);
      blanks := more + [s[|s| - 1]];
    }
  }

  lemma {:induction false} StripLeftStops(s: string)
    ensures StripLeft(s) != "" ==> !Blank(StripLeft(s)[0])
    decreases |s|
  {
    if s != "" && Blank(s[0]) {
      StripLeftStops(s[1..]);
    }
  }

  lemma {:induction false} StripRightStops(s: string)
    ensures var r := StripRight(s); r != "" ==> !Blank(r[|r| - 1]) && r[0] == s[0]
    decreases |s|
  {
    if s != "" && Blank(s[|s| - 1]) {
      StripRightStops(s[..|s| - 1]);
    }
  }

  /** Stripping removes all blanks at the two ends and nothing else; only blank text strips to nothing. */
  lemma StripKeepsTheMiddle(s: string)
    ensures exists before, after :: AllBlank(before) && AllBlank(after) && s == before + Strip(s) + after
    ensures Strip(s) == "" <==> AllBlank(s)
    ensures Strip(s) != "" ==> !Blank(Strip(s)[0]) && !Blank(Strip(s)[|Strip(s)| - 1])
  {
    StripLeftStops(s);
    StripRightStops(StripLeft(s));
    var before := StripLeftDrops(s);
    var after := StripRightDrops(StripLeft(s));
    assert s == before + Strip(s) + after;
    if AllBlank(s) {
      StripOfBlank(s);
    }
  }

  lemma {:induction false} StripOfBlank(s: string)
    requires AllBlank(s)
    ensures StripLeft(s) == ""
    decreases |s|
  {
    if s != "" {
      StripOfBlank(s[1..]);
    }
  }

  lemma Regroup(a: string, b: string, c: string)
    ensures (a + b) + c == a + (b + c)
  {
  }

  lemma {:induction false} JoinFront(pieces: seq<string>)
    ensures pieces != [] ==> Join(pieces) == pieces[0] + Join(pieces[1..])
    decreases |pieces|
  {
    if |pieces| == 1 {
      assert pieces[..0] == [] && pieces[1..] == [];
    } else if |pieces| > 1 {
      var n := |pieces| - 1;
      var front, rest, last := pieces[..n], pieces[1..], pieces[n];
      JoinFront(front);
      assert front[0] == pieces[0] && front[1..] == rest[..n - 1] && rest[n - 1] == last && |rest| == n;
      calc {
        Join(pieces);
        Join(front) + last;
        (pieces[0] + Join(rest[..n - 1])) + last;
        { Regroup(pieces[0], Join(rest[..n - 1]), last); }
        pieces[0] + (Join(rest[..n - 1]) + last);
        pieces[0] + Join(rest);
      }
    }
  }

  /** A text that has a first piece has a complete semicolon prefix, so it is no rest. */
  lemma FirstPieceInRest(sql: string, complete: string -> bool, p: seq<string>, r: string)
    requires SplitsInto(sql, complete, p, r) && p != []
    ensures exists k :: 0 <= k < |sql| && sql[k] == ';' && complete(sql[..k + 1])
  {
    JoinFront(p);
    var a := p[0];
    assert sql == a + (Join(p[1..]) + r);
    assert sql[..|a| - 1 + 1] == a && sql[|a| - 1] == ';';
  }

  lemma NoEarlierCut(complete: string -> bool, a: string, b: string)
    requires Minimal(a, complete) && Minimal(b, complete) && |a| <= |b| && b[..|a|] == a
    ensures a == b
  {
    var k := |a| - 1;
    assert b[k] == a[k] && b[..k + 1] == a;
    assert |a| == |b|;
  }

  /** Two minimal pieces at the head of one text have the same length. */
  lemma FirstPieceIsUnique(complete: string -> bool, a: string, restA: string, b: string, restB: string)
    requires Minimal(a, complete) && Minimal(b, complete) && a + restA == b + restB
    ensures a == b && restA == restB
  {
    var sql := a + restA;
    assert a == sql[..|a|] && b == sql[..|b|];
    if |a| <= |b| {
      NoEarlierCut(complete, a, b);
    } else {
      NoEarlierCut(complete, b, a);
    }
    assert restA == sql[|a|..] && restB == sql[|b|..];
  }

  lemma TailSplits(sql: string, complete: string -> bool, p: seq<string>, r: string)
    requires SplitsInto(sql, complete, p, r) && p != []
    ensures sql == p[0] + (Join(p[1..]) + r) && Minimal(p[0], complete)
    ensures SplitsInto(Join(p[1..]) + r, complete, p[1..], r)
  {
    JoinFront(p);
  }

  /** There is one way to split a text, so the answer does not depend on how it was found. */
  lemma {:induction false} SplitIsUnique(sql: string, complete: string -> bool,
                                         p: seq<string>, r: string, q: seq<string>, t: string)
    requires SplitsInto(sql, complete, p, r) && SplitsInto(sql, complete, q, t)
    ensures p == q && r == t
    decreases |p| + |q|
  {
    if p == [] || q == [] {
      assert p == [] ==> sql == r;
      assert q == [] ==> sql == t;
      if p != [] {
        FirstPieceInRest(sql, complete, p, r);
      } else if q != [] {
        FirstPieceInRest(sql, complete, q, t);
      }
    } else {
      TailSplits(sql, complete, p, r);
      TailSplits(sql, complete, q, t);
      FirstPieceIsUnique(complete, p[0], Join(p[1..]) + r, q[0], Join(q[1..]) + t);
      SplitIsUnique(Join(p[1..]) + r, complete, p[1..], r, q[1..], t);
      assert p == [p[0]] + p[1..] && q == [q[0]] + q[1..];
    }
  }
}
