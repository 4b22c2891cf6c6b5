/** The address index: writing a row, and finding the person behind an address. */
module Identities {
  import opened Common
  import opened Schema
  import opened Addresses
  import opened Respellings
  import opened Text

  /** One owner per channel and key, and no key that was not computed from the address it stands for. */
  ghost predicate IdentitiesOk(identities: seq<Identity>) {
    && (forall i, j | 0 <= i < j < |identities| ::
          !(identities[i].channel == identities[j].channel && identities[i].norm == identities[j].norm))
    && (forall x | x in identities :: Normalized(x))
  }

  predicate Normalized(x: Identity) {
    NormalizeAddress(x.raw, DEFAULT_COUNTRY_CODE) == Ok(x.norm)
  }

  // --- write -------------------------------------------------------------------------------

  predicate Claimed(identities: seq<Identity>, channel: Channel, norm: string) {
    exists x | x in identities :: x.channel == channel && x.norm == norm
  }

  /** `register_identity` as a verdict on the table: the row it inserts, or the error it raises. */
  function RegisterOutcome(
    identities: seq<Identity>, user: Id, channel: Channel, address: string, verified: bool): Result<Identity>
  {
    match NormalizeAddress(address, DEFAULT_COUNTRY_CODE)
    case Err(error) => Err(error)
    case Ok(norm) =>
      if Claimed(identities, channel, norm) then Err(IntegrityError)
      else Ok(Identity(user, channel, address, norm, verified))
  }

  /** One row per channel and key: the address as given, its key, its owner; unreadable and claimed addresses refused. */
  lemma RegisterSays(identities: seq<Identity>, user: Id, channel: Channel, address: string, verified: bool)
    ensures var r, key := RegisterOutcome(identities, user, channel, address, verified),
                          NormalizeAddress(address, DEFAULT_COUNTRY_CODE);
            var claimed := key.Ok? && exists x | x in identities :: x.channel == channel && x.norm == key.value;
            && (r.Ok? <==> key.Ok? && !claimed)
            && (r == Err(InvalidAddress) <==> key.Err?)
            && (r == Err(IntegrityError) <==> claimed)
            && (r.Ok? ==>
                  && r.value.user == user && r.value.channel == channel && r.value.raw == address
                  && r.value.norm == key.value && r.value.verified == verified)
  {
    hide Bare, UsableEmail, PhoneText, Digits, LStrip;
  }

  method RegisterIdentity(session: Session, user: Id, channel: Channel, address: string, verified: bool)
    returns (r: Result<Identity>)
    modifies session
    ensures r == RegisterOutcome(old(session.identities), user, channel, address, verified)
    ensures session.Tables() ==
            if r.Ok? then old(session.Tables()).(identities := old(session.identities) + [r.value]) else old(session.Tables())
    ensures old(IdentitiesOk(session.identities)) ==> IdentitiesOk(session.identities)
  {
    hide NormalizeAddress;
    var canonical := NormalizeAddress(address, DEFAULT_COUNTRY_CODE);
    if canonical.Err? {
      return Err(canonical.error);
    }
    if Claimed(session.identities, channel, canonical.value) {
      return Err(IntegrityError);
    }
    var identity := Identity(user, channel, address, canonical.value, verified);
    session.identities := session.identities + [identity];
    return Ok(identity);
  }

  // --- read --------------------------------------------------------------------------------

  predicate Owns(identities: seq<Identity>, user: Id, channel: Channel, norm: string) {
    exists x | x in identities :: x.user == user && x.channel == channel && x.norm == norm && x.verified
  }

  /** The first row of the join, in scan order. */
  function FirstOwner(members: seq<Membership>, identities: seq<Identity>, channel: Channel, norm: string, org: Id)
    : (r: Option<Membership>)
    ensures r.Some? ==> r.value in members && r.value.org == org && Owns(identities, r.value.user, channel, norm)
    ensures r.None? ==> forall m | m in members && m.org == org :: !Owns(identities, m.user, channel, norm)
  {
    if members == [] then None
    else if members[0].org == org && Owns(identities, members[0].user, channel, norm) then Some(members[0])
    else FirstOwner(members[1..], identities, channel, norm, org)
  }

  function ResolveSender(
    members: seq<Membership>, identities: seq<Identity>, channel: Channel, address: string, org: Id): Option<Membership>
  {
    match NormalizeAddress(address, DEFAULT_COUNTRY_CODE)
    case Err(_) => None
    case Ok(norm) => FirstOwner(members, identities, channel, norm, org)
  }

  // --- what the index answers --------------------------------------------------------------

  /** Two rows for one address on one channel are one row. */
  lemma OneOwnerPerAddress(identities: seq<Identity>, x: Identity, y: Identity)
    requires IdentitiesOk(identities) && x in identities && y in identities && x.channel == y.channel
    requires Respells(x.raw, y.raw, DEFAULT_COUNTRY_CODE)
    ensures x == y
  {
    hide NormalizeAddress, Respells;
    assert Normalized(x) && Normalized(y);
    SameKeyIff(x.raw, y.raw, DEFAULT_COUNTRY_CODE);
    SameKeyOneRow(identities, x, y);
  }

  lemma SameKeyOneRow(identities: seq<Identity>, x: Identity, y: Identity)
    requires IdentitiesOk(identities) && x in identities && y in identities
    requires x.channel == y.channel && x.norm == y.norm
    ensures x == y
  {
    hide Normalized;
    var i :| 0 <= i < |identities| && identities[i] == x;
    var j :| 0 <= j < |identities| && identities[j] == y;
  }

  /** At most one membership of an organization owns a key. */
  lemma OwnerIsUnique(
    members: seq<Membership>, identities: seq<Identity>, channel: Channel, norm: string, m: Membership, n: Membership)
    requires MembersOk(members) && IdentitiesOk(identities) && m in members && n in members && m.org == n.org
    requires Owns(identities, m.user, channel, norm) && Owns(identities, n.user, channel, norm)
    ensures m == n
  {
    hide IdentitiesOk, ManagerFits;
    var x :| x in identities && x.user == m.user && x.channel == channel && x.norm == norm && x.verified;
    var y :| y in identities && y.user == n.user && y.channel == channel && y.norm == norm && y.verified;
    SameKeyOneRow(identities, x, y);
    var i :| 0 <= i < |members| && members[i] == m;
    var j :| 0 <= j < |members| && members[j] == n;
  }

  /** The person behind an address: who in the organization holds it, verified, in whatever spelling. */
  ghost predicate Behind(identities: seq<Identity>, m: Membership, channel: Channel, address: string) {
    exists x :: x in identities && x.user == m.user && x.channel == channel && x.verified &&
                Respells(address, x.raw, DEFAULT_COUNTRY_CODE)
  }

  lemma BehindIsOwner(identities: seq<Identity>, m: Membership, channel: Channel, address: string, norm: string)
    requires IdentitiesOk(identities) && NormalizeAddress(address, DEFAULT_COUNTRY_CODE) == Ok(norm)
    ensures Behind(identities, m, channel, address) <==> Owns(identities, m.user, channel, norm)
  {
    hide NormalizeAddress, Respells;
    forall x | x in identities
      ensures x.norm == norm <==> Respells(address, x.raw, DEFAULT_COUNTRY_CODE)
    {
      assert Normalized(x);
      SameKeyIff(address, x.raw, DEFAULT_COUNTRY_CODE);
    }
  }

  /** Resolving finds exactly the one member behind a readable address; nobody is behind an unreadable one. */
  lemma ResolvesIff(
    members: seq<Membership>, identities: seq<Identity>, channel: Channel, address: string, org: Id, m: Membership)
    requires MembersOk(members) && IdentitiesOk(identities)
    ensures ResolveSender(members, identities, channel, address, org) == Some(m) <==>
              && NormalizeAddress(address, DEFAULT_COUNTRY_CODE).Ok?
              && m in members && m.org == org && Behind(identities, m, channel, address)
    ensures NormalizeAddress(address, DEFAULT_COUNTRY_CODE).Err? ==>
              ResolveSender(members, identities, channel, address, org).None?
  {
    hide NormalizeAddress, MembersOk, IdentitiesOk, Behind, Owns;
    if NormalizeAddress(address, DEFAULT_COUNTRY_CODE).Ok? {
      var norm := NormalizeAddress(address, DEFAULT_COUNTRY_CODE).value;
      BehindIsOwner(identities, m, channel, address, norm);
      var found := FirstOwner(members, identities, channel, norm, org);
      if found.Some? && m in members && m.org == org && Owns(identities, m.user, channel, norm) {
        OwnerIsUnique(members, identities, channel, norm, m, found.value);
      }
    }
  }

  /** What a fresh row adds: its owner, for its address on its channel, if verified. */
  lemma RegisterAdds(identities: seq<Identity>, x: Identity, user: Id, channel: Channel, norm: string)
    ensures Owns(identities + [x], user, channel, norm) <==>
            Owns(identities, user, channel, norm) ||
            (x.verified && x.user == user && x.channel == channel && x.norm == norm)
  {
    if y :| y in identities && y.user == user && y.channel == channel && y.norm == norm && y.verified {
      assert y in identities + [x];
    }
    assert x in identities + [x];
  }

  /** Once registered and verified, an address resolves to its owner however it is rewritten. */
  lemma RegisteredResolves(
    members: seq<Membership>, identities: seq<Identity>, user: Id, channel: Channel, address: string, spelling: string,
    m: Membership)
    requires MembersOk(members) && IdentitiesOk(identities) && m in members && m.user == user
    requires RegisterOutcome(identities, user, channel, address, true).Ok?
    requires Respells(spelling, address, DEFAULT_COUNTRY_CODE)
    ensures var row := RegisterOutcome(identities, user, channel, address, true).value;
            ResolveSender(members, identities + [row], channel, spelling, m.org) == Some(m)
  {
    hide NormalizeAddress, MembersOk, Respells;
    var row := RegisterOutcome(identities, user, channel, address, true).value;
    RegisterKeeps(identities, user, channel, address, true);
    RespellingKeeps(spelling, address, DEFAULT_COUNTRY_CODE);
    ResolvesIff(members, identities + [row], channel, spelling, m.org, m);
    assert row in identities + [row];
  }

  /**
   A ten-digit number enrolled in one spelling is recognised in every other: any punctuation after
   the first character, with or without the 1 or +1, with or without a URI prefix, on either side.
   */
  lemma SpelledNumberResolves(
    members: seq<Membership>, identities: seq<Identity>, user: Id, channel: Channel, m: Membership,
    d: string, a: string, p: string, b: string, q: string)
    requires MembersOk(members) && IdentitiesOk(identities) && m in members && m.user == user
    requires |d| == 10 && (forall c | c in d :: IsDigit(c)) && Spells(a, d) && Spells(b, d)
    requires (p == "" || Lower(p) in URI_PREFIXES) && (q == "" || Lower(q) in URI_PREFIXES)
    requires RegisterOutcome(identities, user, channel, p + a, true).Ok?
    ensures var row := RegisterOutcome(identities, user, channel, p + a, true).value;
            ResolveSender(members, identities + [row], channel, q + b, m.org) == Some(m)
  {
    hide NormalizeAddress, MembersOk, Respells, Spells;
    SpellingsAgree(a, d, p);
    SpellingsAgree(b, d, q);
    SameKeyIff(q + b, p + a, DEFAULT_COUNTRY_CODE);
    RegisteredResolves(members, identities, user, channel, p + a, q + b, m);
  }

  /** A mailbox enrolled in one case is recognised in any other, with or without a URI prefix. */
  lemma MailboxResolves(
    members: seq<Membership>, identities: seq<Identity>, user: Id, channel: Channel, m: Membership,
    address: string, spelling: string, p: string)
    requires MembersOk(members) && IdentitiesOk(identities) && m in members && m.user == user
    requires Lower(spelling) == Lower(address) && UriPrefix(Strip(spelling)) == 0
    requires p == "" || Lower(p) in URI_PREFIXES
    requires RegisterOutcome(identities, user, channel, address, true).Ok?
    ensures var row := RegisterOutcome(identities, user, channel, address, true).value;
            ResolveSender(members, identities + [row], channel, p + spelling, m.org) == Some(m)
  {
    hide NormalizeAddress, MembersOk, Respells, UriPrefix, Strip, Lower;
    CaseIgnored(spelling, address, DEFAULT_COUNTRY_CODE);
    if p == "" {
      assert p + spelling == spelling;
    } else {
      PrefixIgnored(p, spelling, DEFAULT_COUNTRY_CODE);
    }
    SameKeyIff(p + spelling, address, DEFAULT_COUNTRY_CODE);
    RegisteredResolves(members, identities, user, channel, address, p + spelling, m);
  }

  lemma RegisterKeeps(identities: seq<Identity>, user: Id, channel: Channel, address: string, verified: bool)
    requires IdentitiesOk(identities) && RegisterOutcome(identities, user, channel, address, verified).Ok?
    ensures IdentitiesOk(identities + [RegisterOutcome(identities, user, channel, address, verified).value])
  {
    hide NormalizeAddress;
  }

  /** Registering changes no answer but its own: other addresses, other channels, unverified rows. */
  lemma OthersResolveAsBefore(
    members: seq<Membership>, identities: seq<Identity>, user: Id, channel: Channel, address: string, verified: bool,
    other: string, on: Channel, org: Id)
    requires RegisterOutcome(identities, user, channel, address, verified).Ok?
    requires !verified || on != channel || !Respells(other, address, DEFAULT_COUNTRY_CODE)
    ensures var row := RegisterOutcome(identities, user, channel, address, verified).value;
            ResolveSender(members, identities + [row], on, other, org) == ResolveSender(members, identities, on, other, org)
  {
    hide NormalizeAddress, Respells;
    var row := RegisterOutcome(identities, user, channel, address, verified).value;
    if NormalizeAddress(other, DEFAULT_COUNTRY_CODE).Ok? {
      SameKeyIff(other, address, DEFAULT_COUNTRY_CODE);
      SameFirstOwner(members, identities, row, on, NormalizeAddress(other, DEFAULT_COUNTRY_CODE).value, org);
    }
  }

  lemma {:induction false} SameFirstOwner(
    members: seq<Membership>, identities: seq<Identity>, x: Identity, channel: Channel, norm: string, org: Id)
    requires !x.verified || x.channel != channel || x.norm != norm
    ensures FirstOwner(members, identities + [x], channel, norm, org) == FirstOwner(members, identities, channel, norm, org)
  {
    hide Owns;
    if members != [] {
      SameFirstOwner(members[1..], identities, x, channel, norm, org);
      RegisterAdds(identities, x, members[0].user, channel, norm);
    }
  }
}
