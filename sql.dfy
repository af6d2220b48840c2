/**
 * Parameterized SQL statements. In the statements the handlers send, every `?`
 * stands alone and is a value placeholder; the driver fills the placeholders,
 * left to right, from a positional parameter list. (The driver reads `??` as an
 * identifier placeholder; no statement here has two marks side by side.)
 *
 * `Segments(sql)` cuts the text at its placeholders, so segment `i` is the text
 * that comes immediately before parameter `i`. `Join` is its inverse. A query is
 * aligned when it has exactly one parameter per placeholder.
 */
module Sql {
  import opened Values

  /** A statement sent to the store: the SQL text and its positional parameters. */
  datatype Query = Query(sql: string, params: seq<JsonValue>)

  /** The placeholder character. */
  const Mark: char := '?'

  /** Text holding no placeholder. */
  predicate Plain(s: string)
  {
    Mark !in s
  }

  /** The number of placeholders in `s`. */
  function Placeholders(s: string): nat
    decreases |s|
  {
    if s == [] then 0
    else (if s[0] == Mark then 1 else 0) + Placeholders(s[1..])
  }

  /** A query has one parameter for every placeholder. */
  predicate Aligned(q: Query)
  {
    Placeholders(q.sql) == |q.params|
  }

  /** The placeholder-free pieces of `s`, in order: `s` with every `?` taken as a separator. */
  function Segments(s: string): (pieces: seq<string>)
    ensures |pieces| >= 1
    ensures forall i :: 0 <= i < |pieces| ==> Plain(pieces[i])
    decreases |s|
  {
    if s == [] then [""]
    else
      var rest := Segments(s[1..]);
      if s[0] == Mark then [""] + rest
      else [[s[0]] + rest[0]] + rest[1..]
  }

  /** The text obtained by putting a placeholder between consecutive pieces. */
  function Join(pieces: seq<string>): string
    requires |pieces| >= 1
    decreases |pieces|
  {
    if |pieces| == 1 then pieces[0]
    else pieces[0] + [Mark] + Join(pieces[1..])
  }

  /** Prepending a character to the first piece prepends it to the joined text. */
  lemma {:induction false} JoinPrepend(c: char, pieces: seq<string>)
    requires |pieces| >= 1
    ensures Join([[c] + pieces[0]] + pieces[1..]) == [c] + Join(pieces)
  {
  }

  /** Joining the segments of a text gives the text back. */
  lemma {:induction false} JoinSegments(s: string)
    ensures Join(Segments(s)) == s
    decreases |s|
  {
    if s != [] {
      var rest := Segments(s[1..]);
      JoinSegments(s[1..]);
      if s[0] == Mark {
        assert ([""] + rest)[1..] == rest;
        assert Join(Segments(s)) == "" + [Mark] + Join(rest);
      } else {
        JoinPrepend(s[0], rest);
      }
      assert s == [s[0]] + s[1..];
    }
  }

  /** A placeholder-free prefix joins the first segment of what follows it. */
  lemma {:induction false} SegmentsAfterPlain(a: string, t: string)
    requires Plain(a)
    ensures Segments(a + t) == [a + Segments(t)[0]] + Segments(t)[1..]
    decreases |a|
  {
    if a == [] {
      assert a + t == t;
      var st := Segments(t);
      assert a + st[0] == st[0];
      assert [st[0]] + st[1..] == st;
    } else {
      var a' := a[1..];
      assert (a + t)[1..] == a' + t;
      assert (a + t)[0] == a[0] != Mark;
      SegmentsAfterPlain(a', t);
      assert [a[0]] + (a' + Segments(t)[0]) == a + Segments(t)[0];
    }
  }

  /** Cutting joined placeholder-free pieces gives the pieces back. */
  lemma {:induction false} SegmentsJoin(pieces: seq<string>)
    requires |pieces| >= 1
    requires forall i :: 0 <= i < |pieces| ==> Plain(pieces[i])
    ensures Segments(Join(pieces)) == pieces
    decreases |pieces|
  {
    var a := pieces[0];
    if |pieces| == 1 {
      SegmentsAfterPlain(a, "");
      assert a + "" == a;
    } else {
      var b := Join(pieces[1..]);
      SegmentsJoin(pieces[1..]);
      assert a + [Mark] + b == a + ([Mark] + b);
      SegmentsAfterPlain(a, [Mark] + b);
      assert ([Mark] + b)[1..] == b;
      assert Segments([Mark] + b) == [""] + pieces[1..];
      assert a + "" == a;
      assert [a] + pieces[1..] == pieces;
    }
  }

  /** A text has one more segment than it has placeholders. */
  lemma {:induction false} SegmentsCount(s: string)
    ensures |Segments(s)| == Placeholders(s) + 1
    decreases |s|
  {
    if s != [] {
      SegmentsCount(s[1..]);
    }
  }

  /** A text built as `Join(pieces)` from placeholder-free pieces has exactly those
      segments and one placeholder fewer than it has pieces. */
  lemma {:induction false} StatementShape(s: string, pieces: seq<string>)
    requires |pieces| >= 1
    requires forall i :: 0 <= i < |pieces| ==> Plain(pieces[i])
    requires s == Join(pieces)
    ensures Segments(s) == pieces
    ensures Placeholders(s) == |pieces| - 1
  {
    SegmentsJoin(pieces);
    SegmentsCount(s);
  }

  /** A statement without placeholders is one segment. */
  lemma {:induction false} OnePiece(a: string)
    requires Plain(a)
    ensures Segments(a) == [a] && Placeholders(a) == 0
  {
    StatementShape(a, [a]);
  }

  /** A statement with one placeholder, between `a` and `b`. */
  lemma {:induction false} TwoPieces(a: string, b: string)
    requires Plain(a) && Plain(b)
    ensures Segments(a + [Mark] + b) == [a, b] && Placeholders(a + [Mark] + b) == 1
  {
    StatementShape(a + [Mark] + b, [a, b]);
  }

  /** A statement with two placeholders, separating `a`, `b` and `c`. */
  lemma {:induction false} ThreePieces(a: string, b: string, c: string)
    requires Plain(a) && Plain(b) && Plain(c)
    ensures Segments(a + [Mark] + b + [Mark] + c) == [a, b, c]
    ensures Placeholders(a + [Mark] + b + [Mark] + c) == 2
  {
    var s := a + [Mark] + b + [Mark] + c;
    assert s == a + [Mark] + (b + [Mark] + c);
    assert Join([a, b, c]) == a + [Mark] + Join([b, c]);
    StatementShape(s, [a, b, c]);
  }
}
