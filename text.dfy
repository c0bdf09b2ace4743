/**
 * String building blocks used by the request builders of `src/client.rs`:
 * Rust's `[S]::join`, its inverse `split` on one delimiter character, and a
 * count of the `%2C` list separator.
 */
module Text {

  /** The literal (already percent-encoded) comma that separates list items. */
  const ListSep: string := "%2C"

  /** Rust's `[S]::join(sep)`: the parts in order with `sep` between neighbours. */
  function Join(parts: seq<string>, sep: string): string
  {
    if |parts| == 0 then ""
    else if |parts| == 1 then parts[0]
    else parts[0] + sep + Join(parts[1..], sep)
  }

  /** Splits `s` at every occurrence of `d`, as Rust's `str::split(d)` does. */
  function Split(s: string, d: char): (r: seq<string>)
    ensures |r| >= 1
    ensures forall i :: 0 <= i < |r| ==> d !in r[i]
  {
    if |s| == 0 then [""]
    else
      var rest := Split(s[1..], d);
      if s[0] == d then [""] + rest else [[s[0]] + rest[0]] + rest[1..]
  }

  /** The number of (possibly overlapping) positions at which `%2C` starts in `s`. */
  function SepCount(s: string): nat
  {
    if |s| < 3 then 0
    else (if s[..3] == ListSep then 1 else 0) + SepCount(s[1..])
  }

  lemma JoinCons(x: string, rest: seq<string>, sep: string)
    requires |rest| > 0
    ensures Join([x] + rest, sep) == x + sep + Join(rest, sep)
  {
    assert ([x] + rest)[1..] == rest;
  }

  lemma {:induction false} JoinSnoc(parts: seq<string>, x: string, sep: string)
    requires |parts| > 0
    ensures Join(parts + [x], sep) == Join(parts, sep) + sep + x
  {
    if |parts| > 1 {
      JoinSnoc(parts[1..], x, sep);
      assert (parts + [x])[1..] == parts[1..] + [x];
    } else {
      assert parts + [x] == [parts[0], x];
      JoinCons(parts[0], [x], sep);
    }
  }

  /** Joining two non-empty runs of parts is joining each and putting `sep` between them. */
  lemma {:induction false} JoinAppend(a: seq<string>, b: seq<string>, sep: string)
    requires |a| > 0 && |b| > 0
    ensures Join(a + b, sep) == Join(a, sep) + sep + Join(b, sep)
  {
    if |a| == 1 {
      assert a + b == [a[0]] + b;
      JoinCons(a[0], b, sep);
    } else {
      JoinAppend(a[1..], b, sep);
      assert (a + b)[1..] == a[1..] + b;
    }
  }

  /** A string without the delimiter splits into itself alone. */
  lemma {:induction false} SplitNoDelim(x: string, d: char)
    requires d !in x
    ensures Split(x, d) == [x]
  {
    if |x| > 0 {
      SplitNoDelim(x[1..], d);
      assert [x[0]] + x[1..] == x;
    }
  }

  /** Splitting distributes over a delimiter placed between two strings. */
  lemma {:induction false} SplitAppend(a: string, b: string, d: char)
    ensures Split(a + [d] + b, d) == Split(a, d) + Split(b, d)
  {
    var s := a + [d] + b;
    if |a| == 0 {
      assert s == [d] + b && s[1..] == b;
    } else {
      assert s[0] == a[0] && s[1..] == a[1..] + [d] + b;
      SplitAppend(a[1..], b, d);
      var left, right := Split(a[1..], d), Split(b, d);
      assert Split(s[1..], d) == left + right;
      if a[0] != d {
        assert (left + right)[0] == left[0];
        assert (left + right)[1..] == left[1..] + right;
      }
    }
  }

  /** Round trip: joining delimiter-free parts with the delimiter and splitting gives the parts back. */
  lemma {:induction false} SplitJoin(parts: seq<string>, d: char)
    requires |parts| >= 1
    requires forall i :: 0 <= i < |parts| ==> d !in parts[i]
    ensures Split(Join(parts, [d]), d) == parts
  {
    if |parts| == 1 {
      SplitNoDelim(parts[0], d);
    } else {
      SplitJoin(parts[1..], d);
      SplitAppend(parts[0], Join(parts[1..], [d]), d);
      SplitNoDelim(parts[0], d);
      assert [parts[0]] + parts[1..] == parts;
    }
  }

  /** Splitting peels off a last part that holds no delimiter. */
  lemma SplitSnoc(a: string, c: string, d: char)
    requires d !in c
    ensures Split(a + [d] + c, d) == Split(a, d) + [c]
  {
    SplitAppend(a, c, d);
    SplitNoDelim(c, d);
  }

  /** Joining never introduces a character that neither the parts nor the separator hold. */
  lemma {:induction false} JoinAvoids(parts: seq<string>, sep: string, c: char)
    requires c !in sep
    requires forall i :: 0 <= i < |parts| ==> c !in parts[i]
    ensures c !in Join(parts, sep)
  {
    if |parts| > 1 {
      JoinAvoids(parts[1..], sep, c);
    }
  }

  /** No occurrence of `%2C` straddles a boundary followed by `%`. */
  lemma {:induction false} SepCountAppend(a: string, b: string)
    requires |b| > 0 && b[0] == '%'
    ensures SepCount(a + b) == SepCount(a) + SepCount(b)
  {
    if |a| > 0 {
      var s := a + b;
      assert s[1..] == a[1..] + b;
      SepCountAppend(a[1..], b);
      if |a| >= 3 {
        assert s[..3] == a[..3];
      } else {
        assert SepCount(a) == 0 && SepCount(a[1..]) == 0;
        if |s| >= 3 {
          assert s[|a|] == '%';
          assert s[..3] != ListSep by {
            assert s[..3][|a|] == '%';
          }
        }
      }
    } else {
      assert a + b == b;
    }
  }

  /** A leading separator adds exactly one occurrence. */
  lemma SepCountLeading(b: string)
    ensures SepCount(ListSep + b) == 1 + SepCount(b)
  {
    var s := ListSep + b;
    assert s[..3] == ListSep;
    var t := s[1..];
    assert t == "2C" + b;
    assert SepCount(s) == 1 + SepCount(t);
    var u := t[1..];
    assert u == "C" + b;
    if |t| >= 3 {
      assert t[..3][0] == '2';
      assert SepCount(t) == SepCount(u);
    }
    assert u[1..] == b;
    if |u| >= 3 {
      assert u[..3][0] == 'C';
      assert SepCount(u) == SepCount(b);
    }
  }

  /** `n` items that hold no `%2C` join into text with exactly `n - 1` separators. */
  lemma {:induction false} JoinSepCount(items: seq<string>)
    requires |items| >= 1
    requires forall i :: 0 <= i < |items| ==> SepCount(items[i]) == 0
    ensures SepCount(Join(items, ListSep)) == |items| - 1
  {
    if |items| > 1 {
      JoinSepCount(items[1..]);
      var rest := Join(items[1..], ListSep);
      assert items[0] + ListSep + rest == items[0] + (ListSep + rest);
      SepCountAppend(items[0], ListSep + rest);
      SepCountLeading(rest);
    }
  }
}
