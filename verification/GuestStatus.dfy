/** Reading a SwiftGuest's status: its addresses, and why it is not running yet. */
module GuestStatus {
  import opened Prelude

  datatype Address = Address(typ: string, address: string)

  datatype Condition = Condition(typ: string, status: string, reason: string, message: string)

  // An absent field reads as the empty string.
  datatype Status = Status(
    phase: string, primaryIP: string, primaryIPScope: string, podIP: string, conditions: seq<Condition>)

  const Blank := Status("", "", "", "", [])

  const InternalIP := "InternalIP"

  function Addresses(s: Status): seq<Address> {
    if s.primaryIP == "" then []
    else if s.primaryIPScope == "Pod" then
      if s.podIP == "" then [] else [Address(InternalIP, s.podIP)]
    else [Address(InternalIP, s.primaryIP)]
  }

  predicate Unresolved(c: Condition) {
    c.typ == "Resolved" && c.status == "False"
  }

  function Text(c: Condition): string {
    if c.message != "" then c.message else c.reason
  }

  // The first unresolved condition, if any.
  function UnresolvedMessage(conds: seq<Condition>): Option<string> {
    if conds == [] then None
    else if Unresolved(conds[0]) then Some(Text(conds[0]))
    else UnresolvedMessage(conds[1..])
  }

  method ScanUnresolved(conds: seq<Condition>) returns (r: Option<string>)
    ensures r == UnresolvedMessage(conds)
    ensures r.Some? <==> exists c :: c in conds && Unresolved(c)
  {
    for i := 0 to |conds|
      invariant forall j | 0 <= j < i :: !Unresolved(conds[j])
      invariant UnresolvedMessage(conds) == UnresolvedMessage(conds[i..])
    {
      assert conds[i..][1..] == conds[i + 1..];
      if Unresolved(conds[i]) {
        return Some(Text(conds[i]));
      }
    }
    return None;
  }

  // What the backend concludes from a guest's status.
  datatype Observation =
    | Broken
    | Waiting(reason: string, message: string)
    | Up(addresses: seq<Address>)

  const VMProvisioning := "VMProvisioning"
  const VMWaitingForReferences := "VMWaitingForReferences"

  function Observe(s: Status): (o: Observation)
    ensures o.Up? ==> |o.addresses| == 1 && o.addresses[0].typ == InternalIP && o.addresses[0].address != ""
    ensures o.Up? ==> s.phase == "Running" && s.primaryIP != ""
  {
    if s.phase == "Failed" then Broken
    else if s.phase != "Running" || |Addresses(s)| == 0 then
      match UnresolvedMessage(s.conditions)
      case Some(msg) => Waiting(VMWaitingForReferences, msg)
      case None => Waiting(VMProvisioning, "")
    else Up(Addresses(s))
  }

  // ---- What a status means, by its fields alone. ----

  predicate IsUnresolved(c: Condition) {
    c.typ == "Resolved" && c.status == "False"
  }

  // The first unresolved condition gives the message, or else its reason.
  predicate FirstUnresolved(conds: seq<Condition>, message: string) {
    exists i | 0 <= i < |conds| ::
      && IsUnresolved(conds[i])
      && (forall j | 0 <= j < i :: !IsUnresolved(conds[j]))
      && (conds[i].message != "" ==> message == conds[i].message)
      && (conds[i].message == "" ==> message == conds[i].reason)
  }

  predicate WaitsFor(conds: seq<Condition>, reason: string, message: string) {
    || (reason == "VMWaitingForReferences" && FirstUnresolved(conds, message))
    || (reason == "VMProvisioning" && message == "" && forall i | 0 <= i < |conds| :: !IsUnresolved(conds[i]))
  }

  // Running, with an address that works outside the launcher pod.
  predicate IsUp(s: Status) {
    s.phase == "Running" && s.primaryIP != "" && (s.primaryIPScope == "Pod" ==> s.podIP != "")
  }

  // The pod's address stands in for one that is private to the pod.
  predicate IsReachedAt(s: Status, addresses: seq<Address>) {
    && (s.primaryIPScope == "Pod" ==> addresses == [Address("InternalIP", s.podIP)])
    && (s.primaryIPScope != "Pod" ==> addresses == [Address("InternalIP", s.primaryIP)])
  }

  predicate Means(s: Status, o: Observation) {
    match o
    case Broken => s.phase == "Failed"
    case Up(addresses) => IsUp(s) && IsReachedAt(s, addresses)
    case Waiting(reason, message) => s.phase != "Failed" && !IsUp(s) && WaitsFor(s.conditions, reason, message)
  }

  lemma {:induction false} UnresolvedMessageMeans(conds: seq<Condition>)
    ensures match UnresolvedMessage(conds)
            case Some(message) => FirstUnresolved(conds, message)
            case None => forall i | 0 <= i < |conds| :: !IsUnresolved(conds[i])
  {
    if conds != [] {
      var rest := conds[1..];
      assert forall j | 0 <= j < |rest| :: rest[j] == conds[j + 1];
      if IsUnresolved(conds[0]) {
        assert FirstUnresolved(conds, Text(conds[0]));
      } else {
        UnresolvedMessageMeans(rest);
        if UnresolvedMessage(rest).Some? {
          var message := UnresolvedMessage(rest).value;
          var i :| 0 <= i < |rest| && IsUnresolved(rest[i]) && (forall j | 0 <= j < i :: !IsUnresolved(rest[j]))
            && (rest[i].message != "" ==> message == rest[i].message)
            && (rest[i].message == "" ==> message == rest[i].reason);
          assert IsUnresolved(conds[i + 1]);
          forall j | 0 <= j < i + 1
            ensures !IsUnresolved(conds[j])
          {
            assert j > 0 ==> conds[j] == rest[j - 1];
          }
        }
      }
    }
  }

  lemma WaitsForOneThing(conds: seq<Condition>, reason: string, message: string, reason': string, message': string)
    requires WaitsFor(conds, reason, message) && WaitsFor(conds, reason', message')
    ensures reason == reason' && message == message'
  {
  }

  // Exactly what the backend concludes, for every status.
  lemma ObserveMeans(s: Status, o: Observation)
    ensures Observe(s) == o <==> Means(s, o)
  {
    UnresolvedMessageMeans(s.conditions);
    assert Means(s, Observe(s));
    if Means(s, o) && o.Waiting? && Observe(s).Waiting? {
      WaitsForOneThing(s.conditions, o.reason, o.message, Observe(s).reason, Observe(s).message);
    }
  }

  // A change of an address that is private to its pod changes nothing, and neither does one of
  // the pod's address where the guest's own is public.
  lemma PrivateAddressDoesNotMatter(s: Status, ip: string)
    requires s.primaryIP != "" && ip != ""
    ensures s.primaryIPScope == "Pod" ==> Observe(s.(primaryIP := ip)) == Observe(s)
    ensures s.primaryIPScope != "Pod" ==> Observe(s.(podIP := ip)) == Observe(s)
  {
    var t := if s.primaryIPScope == "Pod" then s.(primaryIP := ip) else s.(podIP := ip);
    ObserveMeans(s, Observe(s));
    assert IsUp(t) == IsUp(s) && forall a :: IsReachedAt(t, a) == IsReachedAt(s, a);
    ObserveMeans(t, Observe(s));
  }
}
