/** Splitting a configured claim value on commas, as java.lang.String.split(",") does
    (limit 0), and joining a list back together with commas.

    Java's split with limit 0 works in two stages:
    - when the separator does not occur at all, the result is the whole string as the
      only element (so "" splits into [""]);
    - otherwise the string is cut at every comma, and trailing empty segments are
      dropped (so "," splits into [] and "a,,b,," into ["a", "", "b"]); leading and
      inner empty segments are kept.
 */
module CommaSplit {

  /** No element of `xs` contains a comma. */
  predicate CommaFree(xs: seq<string>) {
    forall i :: 0 <= i < |xs| ==> ',' !in xs[i]
  }

  /** Every piece of `s` between commas, empty ones included (SegmentsCount: one more than
      the number of commas). */
  function Segments(s: string): (r: seq<string>)
    ensures |r| >= 1
  {
    if |s| == 0 then [""]
    else if s[0] == ',' then [""] + Segments(s[1..])
    else
      var rest := Segments(s[1..]);
      [[s[0]] + rest[0]] + rest[1..]
  }

  /** The number of commas in `s`. */
  function CommaCount(s: string): (r: nat)
    ensures r <= |s|
  {
    if |s| == 0 then 0 else (if s[0] == ',' then 1 else 0) + CommaCount(s[1..])
  }

  /** `xs` without its trailing empty strings. */
  function DropTrailingEmpty(xs: seq<string>): (r: seq<string>)
    ensures |r| <= |xs| && r == xs[..|r|]
    ensures r == [] || r[|r| - 1] != ""
    ensures forall i :: |r| <= i < |xs| ==> xs[i] == ""
  {
    if |xs| == 0 then []
    else if xs[|xs| - 1] == "" then DropTrailingEmpty(xs[..|xs| - 1])
    else xs
  }

  /** The list that `s.split(",")` collects into. */
  function Split(s: string): seq<string> {
    if ',' !in s then [s] else DropTrailingEmpty(Segments(s))
  }

  /** The elements of `xs` with a comma between each two neighbours. */
  function Join(xs: seq<string>): string {
    if |xs| == 0 then ""
    else if |xs| == 1 then xs[0]
    else xs[0] + "," + Join(xs[1..])
  }

  /** `s` without its trailing commas. */
  function TrimTrailingCommas(s: string): (r: string)
    ensures |r| <= |s| && r == s[..|r|]
    ensures r == [] || r[|r| - 1] != ','
    ensures forall i :: |r| <= i < |s| ==> s[i] == ','
  {
    if |s| > 0 && s[|s| - 1] == ',' then TrimTrailingCommas(s[..|s| - 1]) else s
  }

  // ---------------------------------------------------------------------------
  // Lemmas about segments and joining

  lemma {:induction false} SegmentsCommaFree(s: string)
    ensures CommaFree(Segments(s))
  {
    if |s| == 0 {
    } else if s[0] == ',' {
      SegmentsCommaFree(s[1..]);
      var r := Segments(s);
      forall i | 0 <= i < |r| ensures ',' !in r[i] {
        if i > 0 { assert r[i] == Segments(s[1..])[i - 1]; }
      }
    } else {
      SegmentsCommaFree(s[1..]);
      var rest := Segments(s[1..]);
      var r := Segments(s);
      forall i | 0 <= i < |r| ensures ',' !in r[i] {
        if i == 0 {
          assert ',' !in rest[0];
          assert r[0] == [s[0]] + rest[0];
        } else {
          assert r[i] == rest[i];
        }
      }
    }
  }

  /** Joining the segments of `s` gives `s` back. */
  lemma {:induction false} JoinSegments(s: string)
    ensures Join(Segments(s)) == s
  {
    if |s| == 0 {
    } else if s[0] == ',' {
      JoinSegments(s[1..]);
      var r := Segments(s);
      assert r[1..] == Segments(s[1..]);
      assert s == [','] + s[1..];
    } else {
      JoinSegments(s[1..]);
      var rest := Segments(s[1..]);
      var r := Segments(s);
      assert r[1..] == rest[1..];
      if |rest| == 1 {
        assert Join(r) == [s[0]] + rest[0];
      } else {
        assert Join(rest) == rest[0] + "," + Join(rest[1..]);
        assert Join(r) == ([s[0]] + rest[0]) + "," + Join(rest[1..]);
      }
      assert s == [s[0]] + s[1..];
    }
  }

  /** Joining a list with one more element at its end. */
  lemma {:induction false} JoinSnoc(ys: seq<string>, z: string)
    ensures Join(ys + [z]) == if ys == [] then z else Join(ys) + "," + z
  {
    if |ys| == 0 {
      assert ys + [z] == [z];
    } else if |ys| == 1 {
      assert (ys + [z])[1..] == [z];
    } else {
      JoinSnoc(ys[1..], z);
      assert (ys + [z])[1..] == ys[1..] + [z];
    }
  }

  /** The join of a list that ends in a non-empty element ends in that element's last character. */
  lemma JoinLastChar(ys: seq<string>, z: string)
    requires z != ""
    ensures |Join(ys + [z])| > 0 && Join(ys + [z])[|Join(ys + [z])| - 1] == z[|z| - 1]
  {
    JoinSnoc(ys, z);
  }

  /** Dropping trailing empty elements of a comma-free list drops exactly the trailing commas of its join. */
  lemma {:induction false} JoinDropTrailingEmpty(xs: seq<string>)
    requires CommaFree(xs)
    ensures Join(DropTrailingEmpty(xs)) == TrimTrailingCommas(Join(xs))
    decreases |xs|
  {
    if |xs| > 0 {
      var ys, z := xs[..|xs| - 1], xs[|xs| - 1];
      assert xs == ys + [z];
      if z == "" {
        assert CommaFree(ys) by {
          forall i | 0 <= i < |ys| ensures ',' !in ys[i] { assert ys[i] == xs[i]; }
        }
        JoinDropTrailingEmpty(ys);
        JoinSnoc(ys, z);
        if ys != [] {
          assert Join(xs) == Join(ys) + ",";
          TrimOneComma(Join(ys));
        }
      } else {
        assert ',' !in z;
        assert z[|z| - 1] in z;
        JoinLastChar(ys, z);
      }
    }
  }

  /** One more trailing comma makes no difference once trailing commas are trimmed. */
  lemma TrimOneComma(s: string)
    ensures TrimTrailingCommas(s + ",") == TrimTrailingCommas(s)
  {
  }

  // ---------------------------------------------------------------------------
  // Properties of Split

  /** No element of a split contains the separator. */
  lemma SplitCommaFree(s: string)
    ensures CommaFree(Split(s))
  {
    if ',' in s {
      SegmentsCommaFree(s);
      var xs := Segments(s);
      var r := DropTrailingEmpty(xs);
      forall i | 0 <= i < |r| ensures ',' !in r[i] { assert r[i] == xs[i]; }
    }
  }

  /** Joining a split with commas gives back the string without its trailing commas. */
  lemma SplitJoin(s: string)
    ensures Join(Split(s)) == TrimTrailingCommas(s)
  {
    if ',' in s {
      SegmentsCommaFree(s);
      JoinSegments(s);
      JoinDropTrailingEmpty(Segments(s));
    } else if |s| > 0 {
      assert s[|s| - 1] in s;
    }
  }

  /** A split is empty exactly when the string is one or more commas and nothing else,
      and it never has more elements than the string has commas plus one. */
  lemma SplitLength(s: string)
    ensures Split(s) == [] <==> |s| > 0 && forall i :: 0 <= i < |s| ==> s[i] == ','
    ensures |Split(s)| <= CommaCount(s) + 1
    ensures |Split(s)| <= |s| + 1
  {
    SplitJoin(s);
    SegmentsCount(s);
    var r := Split(s);
    if |s| > 0 && forall i :: 0 <= i < |s| ==> s[i] == ',' {
      assert s[0] in s;
      assert TrimTrailingCommas(s) == "";
    }
  }

  /** Cutting at every comma gives one segment more than there are commas. */
  lemma {:induction false} SegmentsCount(s: string)
    ensures |Segments(s)| == CommaCount(s) + 1
  {
    if |s| > 0 { SegmentsCount(s[1..]); }
  }

  /** Segments of a comma-free string followed by a comma and more text. */
  lemma {:induction false} SegmentsAfterWord(x: string, rest: string)
    requires ',' !in x
    ensures Segments(x + "," + rest) == [x] + Segments(rest)
  {
    if |x| == 0 {
      assert x + "," + rest == [','] + rest;
      assert (x + "," + rest)[1..] == rest;
    } else {
      assert ',' !in x[1..] by {
        forall i | 0 <= i < |x[1..]| ensures x[1..][i] != ',' { assert x[1..][i] == x[i + 1]; }
      }
      SegmentsAfterWord(x[1..], rest);
      assert (x + "," + rest)[1..] == x[1..] + "," + rest;
      assert [x[0]] + x[1..] == x;
    }
  }

  /** A comma-free string is its own only segment. */
  lemma {:induction false} SegmentsOfWord(x: string)
    requires ',' !in x
    ensures Segments(x) == [x]
  {
    if |x| > 0 {
      assert ',' !in x[1..] by {
        forall i | 0 <= i < |x[1..]| ensures x[1..][i] != ',' { assert x[1..][i] == x[i + 1]; }
      }
      SegmentsOfWord(x[1..]);
      assert [x[0]] + x[1..] == x;
    }
  }

  /** Cutting the join of a non-empty comma-free list at its commas gives the list back. */
  lemma {:induction false} SegmentsJoin(xs: seq<string>)
    requires |xs| >= 1 && CommaFree(xs)
    ensures Segments(Join(xs)) == xs
  {
    if |xs| == 1 {
      SegmentsOfWord(xs[0]);
    } else {
      assert CommaFree(xs[1..]) by {
        forall i | 0 <= i < |xs[1..]| ensures ',' !in xs[1..][i] { assert xs[1..][i] == xs[i + 1]; }
      }
      assert ',' !in xs[0];
      SegmentsJoin(xs[1..]);
      SegmentsAfterWord(xs[0], Join(xs[1..]));
      assert xs == [xs[0]] + xs[1..];
    }
  }

  /** The converse of SplitJoin: splitting a join gives the list back, for every non-empty
      list that a split can produce from a string (comma-free, and ending in a non-empty
      element unless it is a single element). The empty list, which "," splits into, is
      excluded: it joins to "", which splits into [""]. */
  lemma SplitOfJoin(xs: seq<string>)
    requires |xs| >= 1 && CommaFree(xs)
    requires |xs| == 1 || xs[|xs| - 1] != ""
    ensures Split(Join(xs)) == xs
  {
    if |xs| == 1 {
      assert ',' !in xs[0];
    } else {
      SegmentsJoin(xs);
      var j := Join(xs);
      assert j == xs[0] + "," + Join(xs[1..]);
      assert j[|xs[0]|] == ',';
    }
  }

  /** Splitting on commas, on inputs that show each rule of Java's split. */
  lemma SplitExampleThree()
    ensures Split("a,b,c") == ["a", "b", "c"]
  {
    SplitOfJoin(["a", "b", "c"]);
    assert Join(["a", "b", "c"]) == "a,b,c";
  }

  lemma SplitExampleCerts()
    ensures Split("AA:BB,CC:DD") == ["AA:BB", "CC:DD"]
  {
    assert CommaFree(["AA:BB", "CC:DD"]) by {
      assert "AA:BB" == ['A', 'A', ':', 'B', 'B'];
      assert "CC:DD" == ['C', 'C', ':', 'D', 'D'];
    }
    SplitOfJoin(["AA:BB", "CC:DD"]);
    assert Join(["AA:BB", "CC:DD"]) == "AA:BB,CC:DD";
  }

  lemma SplitExampleEmpty()
    ensures Split("") == [""]
    ensures Split(",") == []
  {
  }

  lemma SplitExampleTrailingEmpty()
    ensures Split("a,,b,,") == ["a", "", "b"]
  {
    var xs := ["a", "", "b", "", ""];
    assert CommaFree(xs) by {
      assert "a" == ['a'];
    }
    SegmentsJoin(xs);
    assert Join(xs) == "a,,b,,";
    assert "a,,b,,"[1] == ',';
    assert DropTrailingEmpty(xs) == ["a", "", "b"] by {
      assert xs[..4] == ["a", "", "b", ""];
      assert xs[..4][..3] == ["a", "", "b"];
    }
  }

  lemma SplitExampleLeadingEmpty()
    ensures Split(",a") == ["", "a"]
  {
    SplitOfJoin(["", "a"]);
    assert Join(["", "a"]) == ",a";
  }
}
