/** The explorer's targeted-navigation attempts and the queue of those not yet tried. */
module ExplorerNavigation {
  import opened Common

  datatype NavKind = Activity | DeepLink

  datatype NavStatus = NotExported | Blocked | Opened | Attempted | PermissionDenied | OutcomeUnknown

  /** A queued attempt: entry `index` of the list for `kind`, and the activity that would show it worked. */
  datatype Nav = Nav(kind: NavKind, index: nat, expected: Option<string>) {
    function Key(): (NavKind, nat) { (kind, index) }
  }

  /** What the manifest says about one component or link: settled at once, or to be tried. */
  datatype Plan = Settled(status: NavStatus) | Try(expected: Option<string>)

  function KeysOf(queue: seq<Nav>): set<(NavKind, nat)> {
    if queue == [] then {} else {queue[0].Key()} + KeysOf(queue[1..])
  }

  predicate Distinct(queue: seq<Nav>) {
    queue == [] || (queue[0].Key() !in KeysOf(queue[1..]) && Distinct(queue[1..]))
  }

  lemma {:induction false} KeysAppend(queue: seq<Nav>, nav: Nav)
    ensures KeysOf(queue + [nav]) == KeysOf(queue) + {nav.Key()}
    ensures Distinct(queue) && nav.Key() !in KeysOf(queue) ==> Distinct(queue + [nav])
  {
    if queue == [] {
      assert ([nav])[1..] == [];
    } else {
      assert (queue + [nav])[1..] == queue[1..] + [nav];
      KeysAppend(queue[1..], nav);
    }
  }

  /** In the list for `kind` exactly the waiting entries say "attempted". */
  ghost predicate Marks(entries: seq<NavStatus>, kind: NavKind, waiting: set<(NavKind, nat)>) {
    && (forall key :: key in waiting && key.0 == kind ==> key.1 < |entries|)
    && (forall i: nat :: i < |entries| ==> (entries[i].Attempted? <==> (kind, i) in waiting))
  }

  /** Entries change only from "attempted" to "blocked". */
  ghost predicate OnlyBlocks(before: seq<NavStatus>, after: seq<NavStatus>) {
    && |after| == |before|
    && forall i :: 0 <= i < |after| ==> after[i] == before[i] || (before[i].Attempted? && after[i].Blocked?)
  }

  class NavigationBook {
    var activities: seq<NavStatus>
    var links: seq<NavStatus>
    var pending: seq<Nav>
    ghost var inFlight: Option<Nav>

    function Entries(kind: NavKind): seq<NavStatus>
      reads this
    {
      if kind.Activity? then activities else links
    }

    ghost function Flight(): set<(NavKind, nat)>
      reads this
    {
      if inFlight.Some? then {inFlight.value.Key()} else {}
    }

    /** An entry still says "attempted" exactly when it is queued or being tried right now. */
    ghost predicate Valid()
      reads this
    {
      && Distinct(pending)
      && Flight() !! KeysOf(pending)
      && Marks(activities, Activity, KeysOf(pending) + Flight())
      && Marks(links, DeepLink, KeysOf(pending) + Flight())
    }

    ghost predicate NoneAttempted()
      reads this
    {
      Attempted !in activities && Attempted !in links
    }

    /** At most the attempt that was being tried is left undecided. */
    ghost predicate OnlyFlightAttempted()
      reads this
    {
      Marks(activities, Activity, Flight()) && Marks(links, DeepLink, Flight())
    }

    lemma DrainedLeavesFlight()
      requires Valid() && pending == []
      ensures OnlyFlightAttempted() && (inFlight == None ==> NoneAttempted())
    {
      assert KeysOf(pending) + Flight() == Flight();
    }

    constructor ()
      ensures Valid() && inFlight == None && pending == [] && activities == [] && links == []
    {
      activities, links, pending, inFlight := [], [], [], None;
    }

    method Prepare(kind: NavKind, plans: seq<Plan>)
      requires Valid() && inFlight == None && Entries(kind) == []
      modifies `activities, `links, `pending
      ensures Valid() && |Entries(kind)| == |plans|
      ensures old(pending) <= pending
      ensures forall k :: 0 <= k < |plans| ==>
                && (Entries(kind)[k].Attempted? <==> plans[k].Try?)
                && (plans[k].Settled? && !plans[k].status.Attempted? ==> Entries(kind)[k] == plans[k].status)
      ensures pending == old(pending) <==> forall plan :: plan in plans ==> !plan.Try?
      ensures kind.Activity? ==> links == old(links)
      ensures kind.DeepLink? ==> activities == old(activities)
    {
      for k := 0 to |plans|
        invariant Valid() && |Entries(kind)| == k
        invariant old(pending) <= pending
        invariant forall j :: 0 <= j < k ==>
                    && (Entries(kind)[j].Attempted? <==> plans[j].Try?)
                    && (plans[j].Settled? && !plans[j].status.Attempted? ==> Entries(kind)[j] == plans[j].status)
        invariant pending == old(pending) <==> forall plan :: plan in plans[..k] ==> !plan.Try?
        invariant kind.Activity? ==> links == old(links)
        invariant kind.DeepLink? ==> activities == old(activities)
      {
        Queue(kind, plans[k]);
      }
    }

    method Queue(kind: NavKind, plan: Plan)
      requires Valid() && inFlight == None
      modifies `activities, `links, `pending
      ensures Valid() && |Entries(kind)| == |old(Entries(kind))| + 1 && old(Entries(kind)) <= Entries(kind)
      ensures Entries(kind)[|old(Entries(kind))|].Attempted? <==> plan.Try?
      ensures plan.Settled? && !plan.status.Attempted? ==> Entries(kind)[|old(Entries(kind))|] == plan.status
      ensures pending == old(pending) + if plan.Try? then [Nav(kind, |old(Entries(kind))|, plan.expected)] else []
      ensures kind.Activity? ==> links == old(links)
      ensures kind.DeepLink? ==> activities == old(activities)
    {
      var nav := Nav(kind, |Entries(kind)|, if plan.Try? then plan.expected else None);
      var status := if plan.Try? then Attempted else if plan.status.Attempted? then Blocked else plan.status;
      KeysAppend(pending, nav);
      pending := if plan.Try? then pending + [nav] else pending;
      if kind.Activity? {
        activities := activities + [status];
      } else {
        links := links + [status];
      }
    }

    /** `pending_navigation.pop(0)`. */
    method Take() returns (nav: Nav)
      requires Valid() && inFlight == None && pending != []
      modifies `pending, `inFlight
      ensures Valid() && inFlight == Some(nav) && [nav] + pending == old(pending)
    {
      nav := pending[0];
      pending := pending[1..];
      inFlight := Some(nav);
      assert KeysOf(pending) + Flight() == old(KeysOf(pending) + Flight());
    }

    method SetStatus(nav: Nav, status: NavStatus)
      requires nav.index < |Entries(nav.kind)|
      modifies `activities, `links
      ensures nav.kind.Activity? ==> links == old(links) && activities == old(activities)[nav.index := status]
      ensures nav.kind.DeepLink? ==> activities == old(activities) && links == old(links)[nav.index := status]
    {
      if nav.kind.Activity? {
        activities := activities[nav.index := status];
      } else {
        links := links[nav.index := status];
      }
    }

    method Settle(nav: Nav, status: NavStatus)
      requires Valid() && inFlight == Some(nav) && !status.Attempted?
      modifies `activities, `links, `inFlight
      ensures Valid() && inFlight == None
      ensures nav.index < |old(Entries(nav.kind))| && pending == old(pending)
      ensures nav.kind.Activity? ==> links == old(links) && activities == old(activities)[nav.index := status]
      ensures nav.kind.DeepLink? ==> activities == old(activities) && links == old(links)[nav.index := status]
    {
      assert nav.Key() in Flight();
      SetStatus(nav, status);
      inFlight := None;
    }

    /** `block_pending_navigation`. */
    method BlockPending()
      requires Valid()
      modifies `activities, `links, `pending
      ensures Valid() && pending == [] && OnlyFlightAttempted()
      ensures inFlight == None ==> NoneAttempted()
      ensures OnlyBlocks(old(activities), activities) && OnlyBlocks(old(links), links)
    {
      while pending != []
        invariant Valid()
        invariant OnlyBlocks(old(activities), activities) && OnlyBlocks(old(links), links)
        decreases |pending|
      {
        BlockFirst();
      }
    }

    method BlockFirst()
      requires Valid() && pending != []
      modifies `activities, `links, `pending
      ensures Valid() && pending == old(pending)[1..]
      ensures OnlyBlocks(old(activities), activities) && OnlyBlocks(old(links), links)
    {
      assert pending[0].Key() in KeysOf(pending);
      SetStatus(pending[0], Blocked);
      pending := pending[1..];
    }
  }
}
