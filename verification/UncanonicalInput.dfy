/** The values RFC 8785 gives no text to, and what one of them does to a mapper under the echo
    contract. */
module UncanonicalInput {
  import opened Wrappers
  import opened Utf8
  import opened KeySorting
  import Canonical = CanonicalJson
  import opened CanonicalForm
  import opened Json
  import opened Reasons
  import opened ProviderAdmission
  import opened AdmissionRollback

  // ---- Integers beyond the domain ----

  lemma {:induction false} AnyErrorIsJoined(texts: seq<Result<string, Canonical.Error>>, k: nat)
    requires k < |texts| && texts[k].Err?
    ensures Canonical.Joined(texts).Err?
  {
    if k > 0 && texts[0].Ok? {
      AnyErrorIsJoined(texts[1..], k - 1);
    }
  }

  /** A dict with a member outside the integer domain has no canonical text. */
  lemma OutOfRangeMemberHasNoText(entries: seq<Keyed<Canonical.Value>>, j: nat)
    requires j < |entries| && Canonical.Text(entries[j].value).Err?
    ensures Canonical.Dumps(Canonical.Dict(entries)).Err?
  {
    var texts := Canonical.EntryTexts(entries);
    var sorted := SortByKey(texts);
    assert texts[j] in texts;
    SortMembers(texts, texts[j]);
    var k :| 0 <= k < |sorted| && sorted[k] == texts[j];
    AnyErrorIsJoined(Canonical.Members(sorted), k);
  }

  predicate OutOfDomain(n: int) { n < Canonical.INT_MIN || n > Canonical.INT_MAX }

  lemma OutOfDomainHasNoText(v: Canonical.Value, key: string)
    requires WellKeyed(v) && Meaning(v).Obj? && key in Meaning(v).fields
    requires Meaning(v).fields[key].Int? && OutOfDomain(Meaning(v).fields[key].n)
    ensures Canonical.Dumps(v).Err?
  {
    var j :| 0 <= j < |v.entries| && v.entries[j].key == key && Meaning(v).fields[key] == Meaning(v.entries[j].value);
    assert Canonical.Text(v.entries[j].value).Err?;
    OutOfRangeMemberHasNoText(v.entries, j);
  }

  // ---- The world of the vendored serializer ----

  /** The world canonicalizes as the vendored serializer does. */
  ghost predicate Serializes(w: World) {
    forall v: Canonical.Value | WellKeyed(v) ::
      w.canonical(Meaning(v)) == (match Canonical.Dumps(v) case Ok(b) => Some(b) case Err(_) => None)
  }

  /** The serializer on the values themselves. */
  ghost function CanonicalBytes(value: Json): Option<bytes> {
    if v: Canonical.Value :| WellKeyed(v) && Meaning(v) == value && Canonical.Dumps(v).Ok?
    then Some(Canonical.Dumps(v).value)
    else None
  }

  /** There is such a world: the bytes do not depend on the order a dict was filled in. */
  lemma SerializerIsAWorld(w: World)
    requires forall value :: w.canonical(value) == CanonicalBytes(value)
    ensures Serializes(w)
  {
    forall v: Canonical.Value | WellKeyed(v)
      ensures CanonicalBytes(Meaning(v)) == (match Canonical.Dumps(v) case Ok(b) => Some(b) case Err(_) => None)
    {
      forall u: Canonical.Value | WellKeyed(u) && Meaning(u) == Meaning(v)
        ensures Canonical.Dumps(u) == Canonical.Dumps(v)
      {
        SameMeaningSameCanon(u, v);
        TextOfCanon(u);
        TextOfCanon(v);
      }
    }
  }

  /** The real case: with that serializer, a turn/start request with one more member in its
      params, an integer beyond 2^53 - 1, raises under the echo contract and leaves its input
      selected. */
  lemma LargeIntegerLeavesInputSelected(
    cfg: Config, s: State, wire: bytes, request: Object, v: Canonical.Value, key: string)
    requires cfg.contract.BoundedTurnEchoV1? && Serializes(cfg.world)
    requires Selects(cfg.binding.base, request) && Carried(cfg.world, wire, request) && Unselected(s, request)
    requires WellKeyed(v) && Meaning(v) == request["params"]
    requires key in request["params"].fields && request["params"].fields[key].Int?
    requires OutOfDomain(request["params"].fields[key].n)
    ensures Step(cfg, s, SelectingCall(s.expectedOrdinal, wire, request))
      == Raised(s.(bounded := s.bounded.(turnInput := SelectedInput(request))), ValueIsOutsideRFC8785JCS)
    ensures !RollsBackCompletely(cfg)
  {
    OutOfDomainHasNoText(v, key);
    EchoRollbackIsPartial(cfg, s, wire, request);
    RollbackExactly(cfg, wire, request);
  }
}
