// Text as the program compares it: `<` on strings is the order of the first differing character.
module Text {

  // The white space and line ends that `trim` removes.
  predicate WhiteSpace(c: char) {
    || '\t' <= c <= '\r' || c == ' ' || c == '\U{00A0}' || c == '\U{1680}' || '\U{2000}' <= c <= '\U{200A}'
    || c == '\U{2028}' || c == '\U{2029}' || c == '\U{202F}' || c == '\U{205F}' || c == '\U{3000}' || c == '\U{FEFF}'
  }

  function TrimStart(s: string): string {
    if s != "" && WhiteSpace(s[0]) then TrimStart(s[1..]) else s
  }

  function TrimEnd(s: string): string {
    if s != "" && WhiteSpace(s[|s| - 1]) then TrimEnd(s[..|s| - 1]) else s
  }

  function Trim(s: string): string {
    TrimEnd(TrimStart(s))
  }

  // Only characters of these codes.
  predicate AllBlank(s: string) {
    forall k :: 0 <= k < |s| ==>
      s[k] as int in {9, 10, 11, 12, 13, 32, 160, 5760, 8192, 8193, 8194, 8195, 8196, 8197, 8198, 8199, 8200, 8201,
                      8202, 8232, 8233, 8239, 8287, 12288, 65279}
  }

  lemma BlankExactly(c: char)
    ensures WhiteSpace(c) <==> AllBlank([c])
  {
    assert [c][0] == c;
  }

  lemma BlankMeans(s: string)
    ensures AllBlank(s) <==> forall c :: c in s ==> WhiteSpace(c)
  {
    forall i | 0 <= i < |s| ensures WhiteSpace(s[i]) <==> AllBlank([s[i]]) { BlankExactly(s[i]); }
    hide WhiteSpace;
    assert forall i :: 0 <= i < |s| ==> [s[i]][0] == s[i];
    if forall c :: c in s ==> WhiteSpace(c) {
      assert forall i :: 0 <= i < |s| ==> s[i] in s;
    }
  }

  lemma BlankGrows(a: string, b: string)
    ensures AllBlank(a + b) <==> AllBlank(a) && AllBlank(b)
  {
    assert forall k :: 0 <= k < |a| ==> (a + b)[k] == a[k];
    assert forall k :: 0 <= k < |b| ==> (a + b)[|a| + k] == b[k];
  }

  lemma {:induction false} TrimStartSplits(s: string)
    ensures |TrimStart(s)| <= |s| && s == s[..|s| - |TrimStart(s)|] + TrimStart(s)
    ensures AllBlank(s[..|s| - |TrimStart(s)|])
    ensures TrimStart(s) != "" ==> !AllBlank([TrimStart(s)[0]])
  {
    hide AllBlank, WhiteSpace;
    assert AllBlank("") by { EmptyIsBlank(); }
    if s != "" {
      BlankExactly(s[0]);
      if WhiteSpace(s[0]) {
        TrimStartSplits(s[1..]);
        var n := |s| - |TrimStart(s)|;
        assert s[..n] == [s[0]] + s[1..][..n - 1];
        BlankGrows([s[0]], s[1..][..n - 1]);
      } else {
        assert s[..0] == "";
      }
    }
  }

  lemma EmptyIsBlank()
    ensures AllBlank("")
  {
  }

  lemma {:induction false} TrimEndSplits(s: string)
    ensures |TrimEnd(s)| <= |s| && s[..|TrimEnd(s)|] == TrimEnd(s) && AllBlank(s[|TrimEnd(s)|..])
    ensures TrimEnd(s) != "" ==> !AllBlank([TrimEnd(s)[|TrimEnd(s)| - 1]])
  {
    hide AllBlank, WhiteSpace;
    assert AllBlank("") by { EmptyIsBlank(); }
    if s != "" {
      var last := s[|s| - 1];
      BlankExactly(last);
      if WhiteSpace(last) {
        TrimEndSplits(s[..|s| - 1]);
        var n := |TrimEnd(s)|;
        assert s[n..] == s[..|s| - 1][n..] + [last];
        BlankGrows(s[..|s| - 1][n..], [last]);
      } else {
        assert s[|s|..] == "";
      }
    }
  }

  // Trimming takes what is blank off both ends, and all of it.
  lemma TrimExactly(s: string)
    ensures exists i, j :: 0 <= i <= j <= |s| && Trim(s) == s[i..j] && AllBlank(s[..i]) && AllBlank(s[j..])
    ensures Trim(s) != "" ==> !AllBlank([Trim(s)[0]]) && !AllBlank([Trim(s)[|Trim(s)| - 1]])
  {
    hide AllBlank, TrimStart, TrimEnd;
    var t := TrimStart(s);
    TrimStartSplits(s);
    TrimEndSplits(t);
    var i := |s| - |t|;
    var j := i + |TrimEnd(t)|;
    assert s[i..j] == t[..|TrimEnd(t)|] && s[j..] == t[|TrimEnd(t)|..];
  }

  predicate Less(a: string, b: string) {
    if |b| == 0 then false
    else if |a| == 0 then true
    else a[0] < b[0] || (a[0] == b[0] && Less(a[1..], b[1..]))
  }

  predicate AtMost(a: string, b: string) {
    !Less(b, a)
  }

  lemma {:induction false} LessIsTotal(a: string, b: string)
    ensures Less(a, b) || a == b || Less(b, a)
    ensures !(Less(a, b) && Less(b, a))
    ensures !Less(a, a)
  {
    if |a| > 0 {
      LessIsTotal(a[1..], a[1..]);
      if |b| > 0 {
        LessIsTotal(a[1..], b[1..]);
        assert a == [a[0]] + a[1..] && b == [b[0]] + b[1..];
      }
    }
  }

  lemma {:induction false} LessIsTransitive(a: string, b: string, c: string)
    requires AtMost(a, b) && AtMost(b, c)
    ensures AtMost(a, c)
    ensures Less(a, b) || Less(b, c) ==> Less(a, c)
  {
    LessIsTotal(a, b);
    LessIsTotal(b, c);
    LessIsTotal(a, c);
    if |a| > 0 && |b| > 0 && |c| > 0 && a[0] == b[0] == c[0] {
      LessIsTransitive(a[1..], b[1..], c[1..]);
    }
  }

  // A common beginning does not decide the order.
  lemma {:induction false} CommonPrefix(p: string, a: string, b: string)
    ensures Less(p + a, p + b) == Less(a, b)
  {
    if |p| == 0 {
      assert p + a == a && p + b == b;
    } else {
      assert (p + a)[1..] == p[1..] + a && (p + b)[1..] == p[1..] + b;
      CommonPrefix(p[1..], a, b);
    }
  }

  // The last text in string order, as `.sort().at(-1)` finds it; the empty text when there is none.
  function Last(s: seq<string>): (m: string)
    ensures s == [] ==> m == ""
    ensures s != [] ==> m in s
    ensures forall x :: x in s ==> AtMost(x, m)
  {
    if s == [] then ""
    else
      var rest := Last(s[1..]);
      assert forall x :: x in s ==> x == s[0] || x in s[1..];
      LessIsTotal(s[0], rest);
      if |s| > 1 && Less(s[0], rest) then rest
      else
        assert forall x :: x in s[1..] ==> AtMost(x, s[0]) by {
          forall x | x in s[1..] ensures AtMost(x, s[0]) { LessIsTransitive(x, rest, s[0]); }
        }
        s[0]
  }

  // The first text in string order, as `.sort()[0]` finds it; the empty text when there is none.
  function First(s: seq<string>): (m: string)
    ensures s == [] ==> m == ""
    ensures s != [] ==> m in s && forall x :: x in s ==> AtMost(m, x)
  {
    if s == [] then ""
    else
      var rest := First(s[1..]);
      assert forall x :: x in s ==> x == s[0] || x in s[1..];
      LessIsTotal(s[0], rest);
      if |s| > 1 && Less(rest, s[0]) then rest
      else
        assert forall x :: x in s[1..] ==> AtMost(s[0], x) by {
          forall x | x in s[1..] ensures AtMost(s[0], x) { LessIsTransitive(s[0], rest, x); }
        }
        s[0]
  }
}
