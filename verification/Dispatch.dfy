/** The job stream: a Redis stream with one consumer group. */
module Dispatch {
  datatype Job = Job(botID: string, botUUID: string, config: string)

  datatype Payload = Malformed | WellFormed(job: Job)

  /** Messages added since the group was created, numbered from 0, and what the group knows of them. */
  datatype Group = Group(entries: seq<Payload>, next: nat, pending: set<nat>, acked: set<nat>)

  const NO_MESSAGES := Group([], 0, {}, {})

  function Add(g: Group, p: Payload): Group {
    g.(entries := g.entries + [p])
  }

  /** XREADGROUP: hand out the next message never delivered before. */
  function Deliver(g: Group): Group
    requires g.next < |g.entries|
  {
    g.(next := g.next + 1, pending := g.pending + {g.next})
  }

  function Acknowledge(g: Group, id: nat): Group {
    if id in g.pending then g.(pending := g.pending - {id}, acked := g.acked + {id}) else g
  }

  /** Every message is in exactly one place: not yet delivered, pending, or acknowledged. */
  ghost predicate Partitioned(g: Group) {
    && g.next <= |g.entries|
    && g.pending !! g.acked
    && forall id: nat :: id in g.pending || id in g.acked <==> id < g.next
  }

  lemma GroupKeeps(g: Group, p: Payload, id: nat)
    requires Partitioned(g)
    ensures Partitioned(Add(g, p)) && Partitioned(Acknowledge(g, id))
    ensures g.next < |g.entries| ==> Partitioned(Deliver(g))
  {
  }

  // ---------------------------------------------------------------- producer and consumer

  class JobStream {
    var group: Group

    constructor ()
      ensures group == NO_MESSAGES && Partitioned(group)
    {
      group := NO_MESSAGES;
    }

    method Enqueue(job: Job) returns (id: nat)
      requires Partitioned(group)
      modifies this
      ensures Partitioned(group) && group == Add(old(group), WellFormed(job)) && id == |old(group).entries|
    {
      id := |group.entries|;
      GroupKeeps(group, WellFormed(job), 0);
      group := Add(group, WellFormed(job));
    }

    /** XREADGROUP, when there is a message: the next one never delivered. */
    method ReadGroup() returns (id: nat)
      requires Partitioned(group) && group.next < |group.entries|
      modifies this
      ensures Partitioned(group) && group == Deliver(old(group)) && id == old(group).next
    {
      id := group.next;
      GroupKeeps(group, Malformed, id);
      group := Deliver(group);
    }

    method Ack(id: nat)
      requires Partitioned(group)
      modifies this
      ensures Partitioned(group) && group == Acknowledge(old(group), id)
    {
      GroupKeeps(group, Malformed, id);
      group := Acknowledge(group, id);
    }
  }
}
