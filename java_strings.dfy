/**
 * The two string operations of the Java standard library that the core relies
 * on: joining with a separator (`Collectors.joining`) and `String.split` with a
 * one-character, non-meta pattern and the default limit 0.
 */
module JavaStrings {

  /** `parts` concatenated with `sep` between each pair of neighbours. */
  function Join(parts: seq<string>, sep: string): string
  {
    if |parts| == 0 then ""
    else if |parts| == 1 then parts[0]
    else parts[0] + sep + Join(parts[1..], sep)
  }

  /** Appending a part adds the separator only when there was a part before it. */
  lemma {:induction false} JoinAppend(parts: seq<string>, sep: string, x: string)
    ensures Join(parts + [x], sep) == if parts == [] then x else Join(parts, sep) + sep + x
  {
    if |parts| > 1 {
      assert (parts + [x])[1..] == parts[1..] + [x];
      JoinAppend(parts[1..], sep, x);
    }
  }

  /**
   * The pieces of `s` around every occurrence of `d`, empty pieces included:
   * one more piece than there are occurrences of `d`.
   */
  function Pieces(s: string, d: char): (r: seq<string>)
    ensures |r| >= 1
    ensures forall i :: 0 <= i < |r| ==> d !in r[i]
    ensures |r| == 1 <==> d !in s
  {
    if |s| == 0 then [""]
    else
      var rest := Pieces(s[1..], d);
      if s[0] == d then [""] + rest
      else [[s[0]] + rest[0]] + rest[1..]
  }

  /** Joining the pieces with the delimiter gives the string back. */
  lemma {:induction false} PiecesJoin(s: string, d: char)
    ensures Join(Pieces(s, d), [d]) == s
  {
    if |s| > 0 {
      var rest := Pieces(s[1..], d);
      PiecesJoin(s[1..], d);
      if s[0] == d {
        assert s == [d] + s[1..];
      } else if |rest| == 1 {
        assert s == [s[0]] + s[1..];
      } else {
        assert rest == [rest[0]] + rest[1..];
        assert Join(rest, [d]) == rest[0] + [d] + Join(rest[1..], [d]);
        assert s == [s[0]] + s[1..];
      }
    }
  }

  /** A string free of the delimiter is a single piece. */
  lemma {:induction false} PiecesOfPlain(x: string, d: char)
    requires d !in x
    ensures Pieces(x, d) == [x]
  {
    if |x| > 0 {
      assert d !in x[1..] by {
        forall i | 0 <= i < |x[1..]| ensures x[1..][i] != d {
          assert x[1..][i] == x[i + 1];
        }
      }
      PiecesOfPlain(x[1..], d);
      assert x == [x[0]] + x[1..];
    }
  }

  /** A delimiter-free prefix followed by the delimiter ends exactly one piece. */
  lemma {:induction false} PiecesCons(x: string, d: char, t: string)
    requires d !in x
    ensures Pieces(x + [d] + t, d) == [x] + Pieces(t, d)
  {
    if |x| > 0 {
      assert (x + [d] + t)[1..] == x[1..] + [d] + t;
      PiecesCons(x[1..], d, t);
      assert x == [x[0]] + x[1..];
    } else {
      assert (x + [d] + t)[1..] == t;
    }
  }

  /** Splitting a join of delimiter-free parts gives the parts back. */
  lemma {:induction false} JoinPieces(xs: seq<string>, d: char)
    requires |xs| >= 1
    requires forall i :: 0 <= i < |xs| ==> d !in xs[i]
    ensures Pieces(Join(xs, [d]), d) == xs
  {
    if |xs| == 1 {
      PiecesOfPlain(xs[0], d);
    } else {
      JoinPieces(xs[1..], d);
      PiecesCons(xs[0], d, Join(xs[1..], [d]));
      assert xs == [xs[0]] + xs[1..];
    }
  }

  /** Every piece is empty exactly when the string consists of delimiters only. */
  lemma {:induction false} PiecesAllEmpty(s: string, d: char)
    ensures (forall i :: 0 <= i < |Pieces(s, d)| ==> Pieces(s, d)[i] == "")
        <==> (forall i :: 0 <= i < |s| ==> s[i] == d)
  {
    if |s| > 0 {
      PiecesAllEmpty(s[1..], d);
      var rest := Pieces(s[1..], d);
      if s[0] == d {
        var ps := Pieces(s, d);
        assert ps == [""] + rest;
        assert (forall i :: 0 <= i < |ps| ==> ps[i] == "") <==> (forall i :: 0 <= i < |rest| ==> rest[i] == "") by {
          assert forall i :: 0 <= i < |rest| ==> rest[i] == ps[i + 1];
        }
        assert (forall i :: 0 <= i < |s| ==> s[i] == d) <==> (forall i :: 0 <= i < |s[1..]| ==> s[1..][i] == d) by {
          assert forall i :: 0 <= i < |s[1..]| ==> s[1..][i] == s[i + 1];
        }
      } else {
        assert Pieces(s, d)[0] != "";
      }
    }
  }

  /** `xs` without its run of trailing empty strings. */
  function StripTrailingEmpty(xs: seq<string>): (r: seq<string>)
    ensures r <= xs
    ensures r == [] || r[|r| - 1] != ""
    ensures forall i :: |r| <= i < |xs| ==> xs[i] == ""
  {
    if |xs| == 0 then []
    else if xs[|xs| - 1] == "" then StripTrailingEmpty(xs[..|xs| - 1])
    else xs
  }

  /**
   * Java's `s.split(String.valueOf(d))` for a delimiter that is not a regular
   * expression metacharacter: a string without the delimiter is returned whole
   * (so "" gives [""]); otherwise the pieces lose their trailing empty strings.
   */
  function Split(s: string, d: char): (r: seq<string>)
    ensures forall i :: 0 <= i < |r| ==> d !in r[i]
    ensures r == [] <==> (|s| > 0 && forall i :: 0 <= i < |s| ==> s[i] == d)
  {
    if d !in s then
      assert |s| > 0 ==> s[0] != d;
      [s]
    else
      PiecesAllEmpty(s, d);
      StripTrailingEmpty(Pieces(s, d))
  }

  /**
   * `Split` undoes `Join` for a non-empty list of non-empty, delimiter-free
   * parts; the last part being non-empty, no trailing piece is dropped.
   */
  lemma {:induction false} SplitJoin(xs: seq<string>, d: char)
    requires |xs| >= 1
    requires forall i :: 0 <= i < |xs| ==> xs[i] != "" && d !in xs[i]
    ensures Split(Join(xs, [d]), d) == xs
  {
    var s := Join(xs, [d]);
    JoinPieces(xs, d);
    if d !in s {
      assert |Pieces(s, d)| == 1;
    }
  }

  /** The behaviour of `String.split` on the boundary cases. */
  lemma SplitExamples()
    ensures Split("", ';') == [""]
    ensures Split(";", ';') == []
    ensures Split("a;", ';') == ["a"]
    ensures Split("a;;b", ';') == ["a", "", "b"]
    ensures Split(";a", ';') == ["", "a"]
  {
    PiecesCons("", ';', "");
    assert "" + [';'] + "" == ";";
    PiecesCons("a", ';', "");
    assert "a" + [';'] + "" == "a;";
    PiecesOfPlain("b", ';');
    PiecesCons("", ';', "b");
    PiecesCons("a", ';', ";b");
    assert "" + [';'] + "b" == ";b";
    assert "a" + [';'] + ";b" == "a;;b";
    PiecesOfPlain("a", ';');
    PiecesCons("", ';', "a");
    assert "" + [';'] + "a" == ";a";
  }
}
