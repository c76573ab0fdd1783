/** There is always a name that is not in use. */
module FreshIds {
  import opened ApiModel

  lemma {:induction false} LongerThanAll(s: set<string>) returns (n: nat)
    ensures forall x | x in s :: |x| < n
    decreases |s|
  {
    n := 0;
    if s != {} {
      var x :| x in s;
      var rest := s - {x};
      n := LongerThanAll(rest);
      n := if |x| < n then n else |x| + 1;
      assert forall y | y in s :: y in rest || y == x;
    }
  }

  lemma NewName(s: set<string>) returns (x: string)
    ensures x !in s
  {
    var n := LongerThanAll(s);
    x := seq(n, i requires 0 <= i < n => 'x');
  }

  lemma NewNames(g: Shared) returns (n: Names)
    ensures FreshNames(g, n)
  {
    var d := NewName(g.tasks.Keys);
    var c := NewName(g.tasks.Keys + {d});
    n := Names(d, c, 0);
  }

  lemma {:induction false} NewNumber(s: set<nat>) returns (n: nat)
    ensures n !in s && forall x | x in s :: x < n
    decreases |s|
  {
    n := 0;
    if s != {} {
      var x :| x in s;
      var rest := s - {x};
      n := NewNumber(rest);
      n := if x < n then n else x + 1;
      assert forall y | y in s :: y in rest || y == x;
    }
  }
}
