/** What happens somewhere in a run. */
module RunEvents {

  /** What may happen at one operation of a run, after those before it. */
  type Event<!A> = (seq<A>, A) -> bool

  predicate Happens<A>(event: Event<A>, ops: seq<A>) {
    exists k :: 0 <= k < |ops| && event(ops[..k], ops[k])
  }

  lemma HappensNext<A>(event: Event<A>, ops: seq<A>)
    requires |ops| > 0
    ensures var n := |ops| - 1; Happens(event, ops) <==> Happens(event, ops[..n]) || event(ops[..n], ops[n])
  {
    var n := |ops| - 1;
    if Happens(event, ops[..n]) {
      var k :| 0 <= k < n && event(ops[..n][..k], ops[..n][k]);
      assert ops[..n][..k] == ops[..k];
    }
    if Happens(event, ops) {
      var k :| 0 <= k < |ops| && event(ops[..k], ops[k]);
      assert k < n ==> ops[..n][..k] == ops[..k];
    }
  }
}
