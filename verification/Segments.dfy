/**
 Splitting a topic into its levels and joining the levels again, as Go's
 strings.Split and fmt.Sprintf do it with the separator '/'.
 */
module Segments {

  predicate SlashFree(s: string) {
    '/' !in s
  }

  predicate AllSlashFree(parts: seq<string>) {
    forall i | 0 <= i < |parts| :: SlashFree(parts[i])
  }

  function Split(s: string): (parts: seq<string>)
    ensures |parts| >= 1
    ensures AllSlashFree(parts)
  {
    if s == "" then [""]
    else
      var rest := Split(s[1..]);
      if s[0] == '/' then [""] + rest else [[s[0]] + rest[0]] + rest[1..]
  }

  function Join(parts: seq<string>): string
    requires |parts| >= 1
  {
    if |parts| == 1 then parts[0] else parts[0] + "/" + Join(parts[1..])
  }

  /** Joining undoes splitting, for every string. */
  lemma {:induction false} JoinSplit(s: string)
    ensures Join(Split(s)) == s
  {
    if s == "" {
    } else {
      var rest := Split(s[1..]);
      JoinSplit(s[1..]);
      hide AllSlashFree, SlashFree;
      if s[0] == '/' {
        JoinCons("", rest);
      } else if |rest| > 1 {
        JoinCons([s[0]] + rest[0], rest[1..]);
        JoinCons(rest[0], rest[1..]);
        assert rest == [rest[0]] + rest[1..];
      }
    }
  }

  lemma JoinCons(x: string, parts: seq<string>)
    requires |parts| >= 1
    ensures Join([x] + parts) == x + "/" + Join(parts)
  {
    assert ([x] + parts)[1..] == parts;
  }

  /** Splitting distributes over a separator. */
  lemma {:induction false} SplitConcat(a: string, b: string)
    ensures Split(a + "/" + b) == Split(a) + Split(b)
  {
    if a == "" {
      assert a + "/" + b == ['/'] + b;
      SplitStep('/', b);
    } else {
      var tail := a[1..] + "/" + b;
      SplitConcat(a[1..], b);
      assert a + "/" + b == [a[0]] + tail && a == [a[0]] + a[1..];
      SplitStep(a[0], tail);
      SplitStep(a[0], a[1..]);
      HeadOfConcat(Split(a[1..]), Split(b));
    }
  }

  lemma SplitStep(c: char, s: string)
    ensures Split([c] + s) == if c == '/' then [""] + Split(s) else [[c] + Split(s)[0]] + Split(s)[1..]
  {
    assert ([c] + s)[1..] == s;
  }

  lemma HeadOfConcat(a: seq<string>, b: seq<string>)
    requires |a| >= 1
    ensures (a + b)[0] == a[0] && (a + b)[1..] == a[1..] + b
    ensures forall x: string :: ([x] + a) + b == [x] + (a + b)
    ensures forall x: string :: ([x] + a[1..]) + b == [x] + (a + b)[1..]
  {
  }

  /** A string has one level exactly when it holds no separator. */
  lemma {:induction false} SplitSingle(s: string)
    ensures |Split(s)| == 1 <==> SlashFree(s)
    ensures SlashFree(s) ==> Split(s) == [s]
  {
    if s == "" {
    } else {
      SplitSingle(s[1..]);
      assert s == [s[0]] + s[1..];
    }
  }

  /** Splitting undoes joining exactly when no part holds a separator. */
  lemma {:induction false} SplitJoin(parts: seq<string>)
    requires |parts| >= 1
    ensures Split(Join(parts)) == parts <==> AllSlashFree(parts)
  {
    if AllSlashFree(parts) {
      SplitJoinForward(parts);
    }
  }

  lemma {:induction false} SplitJoinForward(parts: seq<string>)
    requires |parts| >= 1 && AllSlashFree(parts)
    ensures Split(Join(parts)) == parts
  {
    SplitSingle(parts[0]);
    if |parts| > 1 {
      SplitJoinForward(parts[1..]);
      SplitConcat(parts[0], Join(parts[1..]));
    }
  }
}
