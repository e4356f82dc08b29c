/** Shared vocabulary of the model: optional values, the outcome of a network
    call, and the handful of JavaScript string operations the client uses
    (trim, split, join, startsWith, includes, ASCII case mapping, String(n)). */
module Base {

  datatype Option<T> = None | Some(value: T)
  {
    function GetOr(default: T): T
    {
      if Some? then value else default
    }
  }

  /** The outcome of an awaited HTTP call: the response body, or a rejection
      that may carry the HTTP status of the response (`error.response?.status`). */
  datatype Net<T> = Ok(value: T) | Fail(status: Option<int>)
  {
    /** `error.response?.status === code` */
    predicate FailedWith(code: int)
    {
      Fail? && status == Some(code)
    }
  }

  /** JavaScript truthiness of an optional string: present and not empty. */
  predicate Present(s: Option<string>)
  {
    s.Some? && s.value != ""
  }

  /** A file picked by the user: its MIME type and its size in bytes. */
  datatype FileInfo = FileInfo(mime: string, size: int)

  /** A message shown with `toast.success` / `toast.error`. */
  datatype Toast = Success(text: string) | Error(text: string)

  // ---------------------------------------------------------------------------
  // Characters

  /** The whitespace of `String.prototype.trim` and of the regex class `\s`,
      restricted to ASCII. */
  predicate IsSpace(c: char)
  {
    c == ' ' || c == '\t' || c == '\n' || c == '\r' || c == '\U{000B}' || c == '\U{000C}'
  }

  predicate IsBlank(s: string)
  {
    forall i :: 0 <= i < |s| ==> IsSpace(s[i])
  }

  function LowerChar(c: char): char
  {
    if 'A' <= c <= 'Z' then (c as int + 32) as char else c
  }

  function UpperChar(c: char): char
  {
    if 'a' <= c <= 'z' then (c as int - 32) as char else c
  }

  /** `toLowerCase`, over ASCII. */
  function Lower(s: string): (r: string)
    ensures |r| == |s|
    ensures forall i :: 0 <= i < |s| ==> r[i] == LowerChar(s[i])
  {
    if |s| == 0 then "" else [LowerChar(s[0])] + Lower(s[1..])
  }

  // ---------------------------------------------------------------------------
  // trim

  function TrimStart(s: string): (r: string)
    ensures |r| <= |s|
  {
    if |s| > 0 && IsSpace(s[0]) then TrimStart(s[1..]) else s
  }

  /** `TrimStart` drops a blank prefix, up to the first non-space. */
  lemma {:induction false} TrimStartDrops(s: string)
    ensures var r := TrimStart(s);
      r == s[|s| - |r|..] && IsBlank(s[..|s| - |r|]) && (|r| > 0 ==> !IsSpace(r[0]))
  {
    if |s| > 0 && IsSpace(s[0]) {
      TrimStartDrops(s[1..]);
      var r := TrimStart(s);
      assert s[1..][|s| - 1 - |r|..] == s[|s| - |r|..];
      var blank := s[..|s| - |r|];
      forall i | 0 <= i < |blank| ensures IsSpace(blank[i]) {
        if i > 0 { assert blank[i] == s[1..][..|s| - 1 - |r|][i - 1]; }
      }
    }
  }

  function TrimEnd(s: string): (r: string)
    ensures |r| <= |s|
  {
    if |s| > 0 && IsSpace(s[|s| - 1]) then TrimEnd(s[..|s| - 1]) else s
  }

  /** `TrimEnd` drops a blank suffix, back to the last non-space. */
  lemma {:induction false} TrimEndDrops(s: string)
    ensures var r := TrimEnd(s);
      r == s[..|r|] && IsBlank(s[|r|..]) && (|r| > 0 ==> !IsSpace(r[|r| - 1]))
  {
    if |s| > 0 && IsSpace(s[|s| - 1]) {
      var front := s[..|s| - 1];
      TrimEndDrops(front);
      var r := TrimEnd(s);
      assert front[..|r|] == s[..|r|];
      forall i | 0 <= i < |s| - |r| ensures IsSpace(s[|r|..][i]) {
        if i < |s| - 1 - |r| { assert s[|r|..][i] == front[|r|..][i]; }
      }
    }
  }

  /** `String.prototype.trim`: the input with its leading and trailing
      whitespace removed, and nothing else. */
  function Trim(s: string): (r: string)
    ensures |r| <= |s|
    ensures |r| > 0 ==> !IsSpace(r[0]) && !IsSpace(r[|r| - 1])
    ensures r == "" <==> IsBlank(s)
    ensures (|s| == 0 || (!IsSpace(s[0]) && !IsSpace(s[|s| - 1]))) ==> r == s
  {
    var e := TrimEnd(s);
    var r := TrimStart(e);
    TrimEndDrops(s);
    TrimStartDrops(e);
    assert r == "" ==> IsBlank(s) by {
      if r == "" {
        assert s[|e|..] == s;
      }
    }
    assert r != "" ==> !IsBlank(s) by {
      if r != "" {
        assert r[0] == e[|e| - |r|] == s[|e| - |r|];
      }
    }
    r
  }

  // ---------------------------------------------------------------------------
  // startsWith, includes

  predicate StartsWith(s: string, prefix: string)
  {
    |prefix| <= |s| && s[..|prefix|] == prefix
  }

  /** `sub` stands in `s` at position `i`. */
  predicate OccursAt(s: string, sub: string, i: int)
  {
    0 <= i <= |s| - |sub| && s[i..i + |sub|] == sub
  }

  /** `String.prototype.includes` */
  predicate Contains(s: string, sub: string)
    decreases |s|
  {
    StartsWith(s, sub) || (|s| > 0 && Contains(s[1..], sub))
  }

  lemma {:induction false} ContainsAt(s: string, sub: string)
    ensures Contains(s, sub) <==> exists i :: OccursAt(s, sub, i)
    decreases |s|
  {
    if StartsWith(s, sub) {
      assert OccursAt(s, sub, 0);
    }
    if |s| > 0 {
      ContainsAt(s[1..], sub);
      if Contains(s[1..], sub) {
        var i :| OccursAt(s[1..], sub, i);
        assert s[1..][i..i + |sub|] == s[i + 1..i + 1 + |sub|];
        assert OccursAt(s, sub, i + 1);
      }
      if exists i :: OccursAt(s, sub, i) {
        var i :| OccursAt(s, sub, i);
        if i > 0 {
          assert s[1..][i - 1..i - 1 + |sub|] == s[i..i + |sub|];
          assert OccursAt(s[1..], sub, i - 1);
        } else {
          assert s[..|sub|] == sub;
        }
      }
    } else if exists i :: OccursAt(s, sub, i) {
      var i :| OccursAt(s, sub, i);
      assert |sub| == 0 && s[..|sub|] == sub;
    }
  }

  // ---------------------------------------------------------------------------
  // split and join

  /** `s.split(c)` for a one-character separator, generalised to any set of
      separator characters: the pieces between separators, in order, with an
      empty piece wherever two separators meet or one stands at an end. */
  function Split(s: string, seps: set<char>): (r: seq<string>)
    ensures |r| >= 1
    decreases |s|
  {
    if |s| == 0 then [""]
    else if s[0] in seps then [""] + Split(s[1..], seps)
    else
      var rest := Split(s[1..], seps);
      [[s[0]] + rest[0]] + rest[1..]
  }

  /** No piece of a split holds a separator. */
  lemma {:induction false} SplitAvoids(s: string, seps: set<char>)
    ensures forall k :: 0 <= k < |Split(s, seps)| ==> Avoids(Split(s, seps)[k], seps)
    decreases |s|
  {
    if |s| > 0 {
      SplitAvoids(s[1..], seps);
      var rest := Split(s[1..], seps);
      if s[0] !in seps {
        var first := [s[0]] + rest[0];
        assert Avoids(first, seps) by {
          forall i | 0 <= i < |first| ensures first[i] !in seps {
            if i > 0 { assert first[i] == rest[0][i - 1]; }
          }
        }
        var r := Split(s, seps);
        forall k | 0 <= k < |r| ensures Avoids(r[k], seps) {
          if k > 0 { assert r[k] == rest[k]; }
        }
      } else {
        var r := Split(s, seps);
        forall k | 0 <= k < |r| ensures Avoids(r[k], seps) {
          if k > 0 { assert r[k] == rest[k - 1]; }
        }
      }
    }
  }

  /** `pieces.join(sep)` */
  function Join(pieces: seq<string>, sep: string): string
  {
    if |pieces| == 0 then ""
    else if |pieces| == 1 then pieces[0]
    else pieces[0] + sep + Join(pieces[1..], sep)
  }

  /** Joining the pieces of a split with the separator gives the input back. */
  lemma {:induction false} JoinSplit(s: string, c: char)
    ensures Join(Split(s, {c}), [c]) == s
    decreases |s|
  {
    if |s| > 0 {
      JoinSplit(s[1..], c);
      var rest := Split(s[1..], {c});
      if s[0] == c {
        assert Split(s, {c}) == [""] + rest;
        assert Join([""] + rest, [c]) == "" + [c] + Join(rest, [c]);
        assert s == [s[0]] + s[1..];
      } else {
        var r := Split(s, {c});
        assert r == [[s[0]] + rest[0]] + rest[1..];
        if |rest| == 1 {
          assert r == [[s[0]] + rest[0]];
        } else {
          assert r[1..] == rest[1..];
          assert Join(r, [c]) == [s[0]] + rest[0] + [c] + Join(rest[1..], [c]);
          assert Join(rest, [c]) == rest[0] + [c] + Join(rest[1..], [c]);
        }
        assert s == [s[0]] + s[1..];
      }
    }
  }

  /** None of the characters of `s` is in `seps`. */
  predicate Avoids(s: string, seps: set<char>)
  {
    forall i :: 0 <= i < |s| ==> s[i] !in seps
  }

  /** Splitting a join of separator-free pieces gives the pieces back. */
  lemma {:induction false} SplitJoin(pieces: seq<string>, c: char, seps: set<char>)
    requires c in seps && |pieces| >= 1
    requires forall k :: 0 <= k < |pieces| ==> Avoids(pieces[k], seps)
    ensures Split(Join(pieces, [c]), seps) == pieces
    decreases |pieces|
  {
    if |pieces| == 1 {
      SplitFree(pieces[0], seps);
    } else {
      SplitJoin(pieces[1..], c, seps);
      var tail := Join(pieces[1..], [c]);
      assert Join(pieces, [c]) == pieces[0] + ([c] + tail);
      SplitPrefix(pieces[0], tail, c, seps);
      assert pieces == [pieces[0]] + pieces[1..];
    }
  }

  lemma {:induction false} SplitFree(s: string, seps: set<char>)
    requires Avoids(s, seps)
    ensures Split(s, seps) == [s]
    decreases |s|
  {
    if |s| > 0 {
      SplitFree(s[1..], seps);
      assert s == [s[0]] + s[1..];
    }
  }

  lemma {:induction false} SplitPrefix(p: string, t: string, c: char, seps: set<char>)
    requires c in seps && Avoids(p, seps)
    ensures Split(p + ([c] + t), seps) == [p] + Split(t, seps)
    decreases |p|
  {
    if |p| == 0 {
      assert p + ([c] + t) == [c] + t;
      assert ([c] + t)[1..] == t;
    } else {
      SplitPrefix(p[1..], t, c, seps);
      var s := p + ([c] + t);
      assert s[0] == p[0] && s[1..] == p[1..] + ([c] + t);
      assert p == [p[0]] + p[1..];
    }
  }

  // ---------------------------------------------------------------------------
  // map(trim).filter(Boolean)

  /** `.filter(Boolean)` on strings: the non-empty ones, in order. */
  function NonEmpty(xs: seq<string>): (r: seq<string>)
    ensures |r| <= |xs|
  {
    if |xs| == 0 then []
    else if xs[0] == "" then NonEmpty(xs[1..])
    else [xs[0]] + NonEmpty(xs[1..])
  }

  /** What `.filter(Boolean)` keeps is non-empty and was in the input. */
  lemma {:induction false} NonEmptyFilters(xs: seq<string>)
    ensures forall k :: 0 <= k < |NonEmpty(xs)| ==> NonEmpty(xs)[k] != "" && NonEmpty(xs)[k] in xs
  {
    if |xs| > 0 {
      NonEmptyFilters(xs[1..]);
      var r := NonEmpty(xs);
      var rest := NonEmpty(xs[1..]);
      forall k | 0 <= k < |r| ensures r[k] != "" && r[k] in xs {
        if xs[0] == "" {
          assert r[k] == rest[k] && rest[k] in xs[1..];
        } else if k > 0 {
          assert r[k] == rest[k - 1] && rest[k - 1] in xs[1..];
        }
      }
    }
  }

  /** `.map(s => s.trim())` */
  function TrimAll(xs: seq<string>): (r: seq<string>)
    ensures |r| == |xs|
    ensures forall k :: 0 <= k < |xs| ==> r[k] == Trim(xs[k])
  {
    if |xs| == 0 then [] else [Trim(xs[0])] + TrimAll(xs[1..])
  }

  /** `xs.map(s => s.trim()).filter(Boolean)` */
  function Clean(xs: seq<string>): seq<string>
  {
    NonEmpty(TrimAll(xs))
  }

  lemma {:induction false} NonEmptyKeeps(xs: seq<string>)
    requires forall k :: 0 <= k < |xs| ==> xs[k] != ""
    ensures NonEmpty(xs) == xs
  {
    if |xs| > 0 { NonEmptyKeeps(xs[1..]); }
  }

  lemma {:induction false} TrimAllKeeps(xs: seq<string>)
    requires forall k :: 0 <= k < |xs| ==> Trim(xs[k]) == xs[k]
    ensures TrimAll(xs) == xs
  {
  }

  /** `Trim` only removes characters, so it keeps a string free of any set of
      characters. */
  lemma TrimAvoids(s: string, seps: set<char>)
    requires Avoids(s, seps)
    ensures Avoids(Trim(s), seps)
  {
    var e := TrimEnd(s);
    var r := TrimStart(e);
    TrimEndDrops(s);
    TrimStartDrops(e);
    assert Avoids(e, seps) by {
      forall i | 0 <= i < |e| ensures e[i] !in seps { assert e[i] == s[..|e|][i] == s[i]; }
    }
    forall i | 0 <= i < |r| ensures r[i] !in seps { assert r[i] == e[|e| - |r| + i]; }
  }

  /** `Trim` of a string with a single leading blank and no other outer
      whitespace is the string without that blank. */
  lemma TrimLeadingBlank(f: string)
    requires |f| > 0 && !IsSpace(f[0]) && !IsSpace(f[|f| - 1])
    ensures Trim(" " + f) == f
  {
    var s := " " + f;
    assert s[|s| - 1] == f[|f| - 1];
    assert TrimEnd(s) == s;
    assert s[1..] == f;
    assert TrimStart(s) == TrimStart(f) == f;
  }

  // ---------------------------------------------------------------------------
  // filter

  /** `s.filter(keep)`: the elements that pass, in their original order. */
  function Filter<T>(s: seq<T>, keep: T -> bool): (r: seq<T>)
    ensures |r| <= |s|
    ensures forall x :: x in r ==> x in s && keep(x)
    ensures forall x :: x in s && keep(x) ==> x in r
    ensures (forall k :: 0 <= k < |s| ==> keep(s[k])) ==> r == s
  {
    if |s| == 0 then []
    else if keep(s[0]) then [s[0]] + Filter(s[1..], keep)
    else Filter(s[1..], keep)
  }

  /** Filtering a concatenation filters each part. */
  lemma {:induction false} FilterAppend<T>(s: seq<T>, t: seq<T>, keep: T -> bool)
    ensures Filter(s + t, keep) == Filter(s, keep) + Filter(t, keep)
  {
    if |s| > 0 {
      var st := s + t;
      assert st[0] == s[0] && st[1..] == s[1..] + t;
      assert Filter(s[1..] + t, keep) == Filter(s[1..], keep) + Filter(t, keep) by {
        FilterAppend(s[1..], t, keep);
      }
      if keep(s[0]) {
        calc {
          Filter(st, keep);
          [s[0]] + Filter(s[1..] + t, keep);
          [s[0]] + (Filter(s[1..], keep) + Filter(t, keep));
          ([s[0]] + Filter(s[1..], keep)) + Filter(t, keep);
          Filter(s, keep) + Filter(t, keep);
        }
      } else {
        calc {
          Filter(st, keep);
          Filter(s[1..] + t, keep);
          Filter(s, keep) + Filter(t, keep);
        }
      }
    } else {
      assert s + t == t;
    }
  }

  /** `r` is `s` with some elements left out, the rest in their order. */
  predicate SubseqOf<T(==)>(r: seq<T>, s: seq<T>)
    decreases |s|
  {
    if |r| == 0 then true
    else if |s| == 0 then false
    else (r[0] == s[0] && SubseqOf(r[1..], s[1..])) || SubseqOf(r, s[1..])
  }

  /** What a filter keeps is in the original order. */
  lemma {:induction false} FilterSubseq<T>(s: seq<T>, keep: T -> bool)
    ensures SubseqOf(Filter(s, keep), s)
  {
    if |s| > 0 {
      FilterSubseq(s[1..], keep);
      var r := Filter(s, keep);
      if keep(s[0]) {
        assert r[0] == s[0] && r[1..] == Filter(s[1..], keep);
      }
    }
  }

  // ---------------------------------------------------------------------------
  // String(n) for numbers

  function DigitChar(d: nat): char
    requires d < 10
  {
    ['0', '1', '2', '3', '4', '5', '6', '7', '8', '9'][d]
  }

  function DigitValue(c: char): int
  {
    if '0' <= c <= '9' then c as int - '0' as int else -1
  }

  /** Decimal digits of `n`, most significant first, without leading zeros. */
  function NatToString(n: nat): (r: string)
    ensures |r| >= 1
    ensures forall i :: 0 <= i < |r| ==> 0 <= DigitValue(r[i]) <= 9
    decreases n
  {
    if n < 10 then [DigitChar(n)] else NatToString(n / 10) + [DigitChar(n % 10)]
  }

  /** `String(n)` for an integer `n`. */
  function IntToString(n: int): string
  {
    if n < 0 then "-" + NatToString(-n) else NatToString(n)
  }

  /** Reads a string of decimal digits back as a number. */
  function DigitsValue(s: string): int
  {
    if |s| == 0 then 0 else DigitsValue(s[..|s| - 1]) * 10 + DigitValue(s[|s| - 1])
  }

  lemma DigitRoundTrip(d: nat)
    requires d < 10
    ensures DigitValue(DigitChar(d)) == d
  {
  }

  /** `String(n)` can be read back as `n`. */
  lemma {:induction false} NatToStringRoundTrip(n: nat)
    ensures DigitsValue(NatToString(n)) == n
    decreases n
  {
    DigitRoundTrip(n % 10);
    if n >= 10 {
      NatToStringRoundTrip(n / 10);
      var s := NatToString(n);
      assert s[..|s| - 1] == NatToString(n / 10);
    }
  }
}
