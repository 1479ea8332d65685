/**
 * Notification dispatch: the messages the cycle sends and the broadcast loop
 * over the subscribers (app.py:162-167, 201-206). A send is modelled as
 * recording the target chat id; the per-target try/except of the source only
 * means that every target is attempted, which the recorded list shows.
 */
module Messaging {
  import opened Wrappers

  /** What a message says, without its text formatting. */
  datatype Message =
    | FetchFailed                                 // "price fetch failed" (app.py:160)
    | ManualQuote(price: int, pivot: Option<real>) // reply to a manual query (app.py:176-178)
    | PriceSignal(price: int, pivot: Option<real>) // automatic signal (app.py:198-200)

  /** No chat appears twice. */
  predicate Distinct(s: seq<int>) {
    forall i, j :: 0 <= i < j < |s| ==> s[i] != s[j]
  }

  /** Sends one message to every chat of `targets`, each exactly once, in some order. */
  method Broadcast(targets: set<int>) returns (sent: seq<int>)
    ensures Distinct(sent)
    ensures forall c :: c in sent <==> c in targets
    ensures |sent| == |targets|
  {
    sent := [];
    var rest := targets;
    while rest != {}
      invariant rest <= targets
      invariant forall c :: c in sent ==> c in targets && c !in rest
      invariant forall c :: c in targets ==> c in sent || c in rest
      invariant Distinct(sent)
      invariant |sent| + |rest| == |targets|
      decreases |rest|
    {
      assert exists c :: c in rest by {
        if forall c :: c !in rest {
          assert false;
        }
      }
      var chat :| chat in rest;
      sent := sent + [chat];
      rest := rest - {chat};
    }
  }
}
