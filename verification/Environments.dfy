/** Environments as the runs suppose them: there are some, whatever sends fail in them. */
module Environments {
  import opened Cluster
  import opened Scheduler

  /** The members of a set, one after the other. */
  ghost function Listing<T(!new)>(all: set<T>): seq<T>
    decreases |all|
  {
    if all == {} then []
    else
      var x :| x in all;
      [x] + Listing(all - {x})
  }

  lemma {:induction false} ListingLists<T(!new)>(all: set<T>)
    ensures Lists(Listing(all), all)
    decreases |all|
  {
    if all != {} {
      var xs := Listing(all);
      assert xs[0] in all && xs[1..] == Listing(all - {xs[0]});
      ListingLists(all - {xs[0]});
      assert xs == [xs[0]] + xs[1..];
      forall i, j | 0 <= i < j < |xs|
        ensures xs[i] != xs[j]
      {
        assert xs[j] == xs[1..][j - 1];
        if i > 0 {
          assert xs[i] == xs[1..][i - 1];
        } else {
          assert xs[j] in xs[1..];
        }
      }
    }
  }

  ghost function FirstOf(ws: set<Identity>): Identity {
    if ws == {} then [] else Listing(ws)[0]
  }

  /** As listed, if that lists them; some other way otherwise. */
  ghost function Roster(first: seq<Identity>, ws: set<Identity>): seq<Identity> {
    if Lists(first, ws) then first else Listing(ws)
  }

  ghost function EnvOf(request: nat -> bool, receipt: nat -> bool, first: seq<Identity>): Env {
    Env(request, receipt,
        (n, ws) => FirstOf(ws),
        (at, w, t, ids) => Listing(ids),
        (at, ws) => Roster(first, ws))
  }

  /** Whichever requests and receipts get out, and whichever workers are looked at first, there is a fair
      environment in which they do and are. */
  lemma FairEnvironment(request: nat -> bool, receipt: nat -> bool, first: seq<Identity>)
    ensures var env := EnvOf(request, receipt, first);
            && Fair(env) && env.request == request && env.receipt == receipt
            && (forall at, ws :: Lists(first, ws) ==> env.roster(at, ws) == first)
  {
    forall ws: set<Identity>
      ensures Lists(Listing(ws), ws) && (ws != {} ==> FirstOf(ws) in ws)
    {
      ListingLists(ws);
    }
    forall ids: set<RequestId>
      ensures Lists(Listing(ids), ids)
    {
      ListingLists(ids);
    }
    hide Listing, FirstOf, Lists;
  }
}
