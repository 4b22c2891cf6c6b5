/** Queueing messages: one row per notification, whether or not it can be delivered. */
module Notifications {
  import opened Common
  import opened Schema

  /** The first verified address of `user` on `channel`, in scan order. */
  function FirstVerified(identities: seq<Identity>, user: Id, channel: Channel): (r: Option<string>)
    ensures r.None? <==> forall x | x in identities :: !(x.user == user && x.channel == channel && x.verified)
    ensures r.Some? ==> exists x :: x in identities && x.user == user && x.channel == channel && x.verified && x.norm == r.value
  {
    if identities == [] then None
    else if identities[0].user == user && identities[0].channel == channel && identities[0].verified
    then Some(identities[0].norm)
    else FirstVerified(identities[1..], user, channel)
  }

  function DestinationFor(members: seq<Membership>, identities: seq<Identity>, member: Id, channel: Channel): Option<string> {
    match FindMember(members, member)
    case None => None
    case Some(m) => FirstVerified(identities, m.user, channel)
  }

  function MessageFor(
    members: seq<Membership>, identities: seq<Identity>, org: Id, recipient: Id, kind: MessageType, now: Time): Message
  {
    var destination := DestinationFor(members, identities, recipient, IMESSAGE);
    Message(org, recipient, IMESSAGE, destination, kind,
            if destination.Some? && destination.value != "" then PENDING else FAILED, now)
  }

  /** Who, what, where from, when; PENDING exactly with a destination to send to. */
  lemma MessageSays(
    members: seq<Membership>, identities: seq<Identity>, org: Id, recipient: Id, kind: MessageType, now: Time)
    ensures var m := MessageFor(members, identities, org, recipient, kind, now);
            && m.org == org && m.recipient == recipient && m.kind == kind && m.availableAt == now && m.channel == IMESSAGE
            && (m.status == PENDING <==> m.destination.Some? && m.destination.value != "")
  {}

  /** `enqueue`; a missing or foreign recipient violates the row's constraints. */
  method Enqueue(session: Session, org: Id, recipient: Option<Id>, kind: MessageType, now: Time)
    returns (r: Result<Message>)
    modifies session
    ensures r.Ok? <==> recipient.Some? && InOrg(old(session.members), recipient.value, org)
    ensures r.Ok? ==>
              && r.value == MessageFor(old(session.members), old(session.identities), org, recipient.value, kind, now)
              && session.Tables() == old(session.Tables()).(outbox := old(session.outbox) + [r.value])
    ensures r.Err? ==> r.error == IntegrityError && session.Tables() == old(session.Tables())
  {
    if recipient.None? || !InOrg(session.members, recipient.value, org) {
      return Err(IntegrityError);
    }
    var destination := DestinationFor(session.members, session.identities, recipient.value, IMESSAGE);
    var status := if destination.Some? && destination.value != "" then PENDING else FAILED;
    var message := Message(org, recipient.value, IMESSAGE, destination, kind, status, now);
    session.outbox := session.outbox + [message];
    return Ok(message);
  }

  /** A row is FAILED exactly when its recipient has no verified address on the channel; otherwise it goes to one. */
  lemma FailedIffUnreachable(
    members: seq<Membership>, identities: seq<Identity>, org: Id, m: Membership, kind: MessageType, now: Time)
    requires MembersOk(members) && m in members
    requires forall x | x in identities :: x.norm != ""
    ensures MessageFor(members, identities, org, m.id, kind, now).status == FAILED <==>
            !(exists x :: x in identities && x.user == m.user && x.channel == IMESSAGE && x.verified)
    ensures var sent := MessageFor(members, identities, org, m.id, kind, now);
            sent.status == PENDING ==>
              exists x :: x in identities && x.user == m.user && x.channel == sent.channel == IMESSAGE && x.verified &&
                          sent.destination == Some(x.norm)
  {
    MemberIsUnique(members, m);
  }

  /** The recipients of one kind of message, in the order the rows were queued. */
  function Recipients(outbox: seq<Message>, kind: MessageType): seq<Id> {
    if outbox == [] then []
    else
      var last := outbox[|outbox| - 1];
      Recipients(outbox[..|outbox| - 1], kind) + if last.kind == kind then [last.recipient] else []
  }

  lemma {:induction false} RecipientsConcat(a: seq<Message>, b: seq<Message>, kind: MessageType)
    ensures Recipients(a + b, kind) == Recipients(a, kind) + Recipients(b, kind)
    decreases |b|
  {
    if b == [] {
      assert a + b == a;
    } else {
      assert (a + b)[..|a + b| - 1] == a + b[..|b| - 1];
      RecipientsConcat(a, b[..|b| - 1], kind);
    }
  }
}
