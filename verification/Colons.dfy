/** Splitting a string at colons, as `strings.Split(s, ":")` does, and joining it again. */
module Colons {
  /** The pieces between colons; there is always at least one. */
  function Split(s: string): (ts: seq<string>)
    ensures |ts| > 0
  {
    if s == "" then [""]
    else
      var ts := Split(s[1..]);
      if s[0] == ':' then [""] + ts else [[s[0]] + ts[0]] + ts[1..]
  }

  function Join(ts: seq<string>): string
    requires |ts| > 0
  {
    if |ts| == 1 then ts[0] else ts[0] + ":" + Join(ts[1..])
  }

  predicate NoColons(ts: seq<string>) { forall t :: t in ts ==> ':' !in t }

  lemma {:induction false} SplitHasNoColons(s: string)
    ensures NoColons(Split(s))
  {
    if s != "" {
      var ts := Split(s[1..]);
      SplitHasNoColons(s[1..]);
      forall t | t in Split(s) ensures ':' !in t {
        assert ':' !in ts[0];
        if s[0] != ':' && t !in ts[1..] {
          assert t == [s[0]] + ts[0];
        }
      }
    }
  }

  lemma {:induction false} JoinSplit(s: string)
    ensures Join(Split(s)) == s
  {
    if s != "" {
      var ts := Split(s[1..]);
      JoinSplit(s[1..]);
      if s[0] == ':' {
        assert ([""] + ts)[1..] == ts;
        assert Join(Split(s)) == "" + ":" + Join(ts);
      } else if |ts| > 1 {
        assert ([[s[0]] + ts[0]] + ts[1..])[1..] == ts[1..];
        assert Join(Split(s)) == [s[0]] + ts[0] + ":" + Join(ts[1..]) == [s[0]] + Join(ts);
      }
    }
  }

  /** A string without colons is one piece. */
  lemma {:induction false} SplitPlain(s: string)
    requires ':' !in s
    ensures Split(s) == [s]
  {
    if s != "" {
      assert s[0] != ':' && s[0] in s;
      SplitPlain(s[1..]);
      assert s == [s[0]] + s[1..];
    }
  }

  lemma {:induction false} SplitAtColon(a: string, b: string)
    ensures Split(a + ":" + b) == Split(a) + Split(b)
  {
    var s := a + ":" + b;
    if a == "" {
      assert s[1..] == b;
    } else {
      assert s[1..] == a[1..] + ":" + b;
      SplitAtColon(a[1..], b);
    }
  }

  /** Splitting finds the pieces that were joined. */
  lemma {:induction false} SplitJoin(ts: seq<string>)
    requires |ts| > 0 && NoColons(ts)
    ensures Split(Join(ts)) == ts
  {
    SplitPlain(ts[0]);
    if |ts| > 1 {
      SplitAtColon(ts[0], Join(ts[1..]));
      SplitJoin(ts[1..]);
    }
  }

  /** The first two pieces of `a:b` are `a` and `b` exactly when neither holds a colon. */
  lemma FirstTwoPieces(a: string, b: string)
    ensures |Split(a + ":" + b)| >= 2
    ensures Split(a + ":" + b)[0] == a && Split(a + ":" + b)[1] == b <==> ':' !in a && ':' !in b
  {
    SplitAtColon(a, b);
    SplitHasNoColons(a + ":" + b);
    if ':' !in a && ':' !in b {
      SplitPlain(a);
      SplitPlain(b);
    } else {
      var ts := Split(a + ":" + b);
      assert ts[0] in ts && ts[1] in ts;
    }
  }
}
