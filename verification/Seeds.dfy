/** The seed profiles: what a new one tells the guest about itself, and how long that stays so. */
module Seeds {
  import opened Prelude
  import opened Names
  import opened MachineObject
  import opened ApiServer
  import opened Controller
  import opened Protocol
  import opened Safety

  // ---- Reading a seed. ----

  datatype Identity = Identity(instanceID: string, hostname: string)

  const InstancePrefix := "instance-id: "
  const HostPrefix := "local-hostname: "

  // A line with this prefix: what it says, and what comes after it.
  function ReadLine(prefix: string, s: string): Option<(string, string)> {
    if prefix <= s then SplitAt(s[|prefix|..], '\n') else None
  }

  // The two lines of NoCloud metadata.
  function DecodeMetaData(s: string): Option<Identity> {
    match ReadLine(InstancePrefix, s)
    case None => None
    case Some((instanceID, rest)) =>
      match ReadLine(HostPrefix, rest)
      case None => None
      case Some((hostname, end)) => if end == "" then Some(Identity(instanceID, hostname)) else None
  }

  lemma LineRead(prefix: string, text: string, rest: string)
    requires '\n' !in text
    ensures ReadLine(prefix, prefix + text + "\n" + rest) == Some((text, rest))
  {
    var s := prefix + text + "\n" + rest;
    assert s[|prefix|..] == text + ['\n'] + rest;
    SplitJoined(text, '\n', rest);
  }

  lemma MetaDataRoundTrip(name: string)
    requires '\n' !in name
    ensures DecodeMetaData("instance-id: " + name + "\nlocal-hostname: " + name + "\n") == Some(Identity(name, name))
  {
    hide ReadLine;
    var rest := HostPrefix + name + "\n" + "";
    LineRead(InstancePrefix, name, rest);
    LineRead(HostPrefix, name, "");
    assert "instance-id: " + name + "\nlocal-hostname: " + name + "\n" == InstancePrefix + name + "\n" + rest;
  }

  // The seed takes the cloud-init from this secret and carries none itself.
  predicate PointsTo(seed: Seed, secret: string) {
    seed.userData in {None, Some("")} && seed.userDataFrom == Some(SecretKeyRef(secret, "value"))
  }

  // Cloud-init runs from the seed, and calls the guest by the machine's name: it is under this
  // name that its Node registers.
  predicate Introduces(seed: Seed, k: Key) {
    && seed.other.Keys == {"datasource", "metaData"}
    && seed.other["datasource"] == "NoCloud"
    && DecodeMetaData(seed.other["metaData"]) == Some(Identity(k.name, k.name))
  }

  lemma NewSeedMeans(k: Key, secret: string)
    requires KubeKey(k)
    ensures Introduces(DesiredSeed(k, secret), k)
    ensures PointsTo(DesiredSeed(k, secret), secret) && DesiredSeed(k, secret).userData == None
  {
    MetaDataRoundTrip(k.name);
  }

  // The Node that the controller looks for is the one the seed has the guest register, and no
  // seed introduces two machines of a namespace.
  lemma IntroducesOne(seed: Seed, j: Key, k: Key, c: Context)
    requires Introduces(seed, k) && j.ns == k.ns
    ensures DecodeMetaData(seed.other["metaData"]).value.hostname == NodeOf(k, c).name
    ensures Introduces(seed, j) <==> j == k
  {
  }

  // Migrating drops inline data, points at the secret and keeps everything else; a seed that
  // needs none is one that points there already.
  lemma MigrationMeans(seed: Seed, secret: string)
    ensures SeedCurrent(seed, secret) <==> PointsTo(seed, secret)
    ensures PointsTo(Migrated(seed, secret), secret) && Migrated(seed, secret).userData == None
    ensures Migrated(seed, secret).other == seed.other
  {
  }

  // ---- Over runs. ----

  predicate SeedIntroduces(s: Store, k: Key) {
    SeedKey(k) in s.seeds ==> Introduces(s.seeds[SeedKey(k)], k)
  }

  predicate Edits(e: Event, k: Key) {
    e.EditSeed? && e.k == SeedKey(k)
  }

  lemma WorkKeepsIntroduction(w: World, k: Key, f: Fault)
    requires k in w.workers && CellOK(k, View(w, k)) && SeedIntroduces(w.store, k)
    ensures SeedIntroduces(Advance(w, k, f).store, k)
  {
    hide Advance, Introduces, Mirrors, StatusOK, MirrorOK, GuestOK;
    var x := w.workers[k];
    CallWrites(w, k, f);
    if x.MakeSeed? {
      assert KubeKey(k);
      NewSeedMeans(k, SecretName(x.c));
      MakesOrNot(w, k, f);
    } else if x.MoveSeed? {
      MigrationMeans(x.found, SecretName(x.c));
      MovesOrNot(w, k, f);
      SameIntroduction(x.found, Migrated(x.found, SecretName(x.c)), k);
    } else if x.KillSeed? {
      KillsOrNot(w, k, f);
    }
  }

  lemma SameIntroduction(a: Seed, b: Seed, k: Key)
    requires a.other == b.other
    ensures Introduces(a, k) == Introduces(b, k)
  {
  }

  lemma MakesOrNot(w: World, k: Key, f: Fault)
    requires k in w.workers && w.workers[k].MakeSeed?
    ensures var a, b := Lookup(w.store.seeds, SeedKey(k)), Lookup(StoreAfter(w, k, f).seeds, SeedKey(k));
            b == a || b == Some(DesiredSeed(k, SecretName(w.workers[k].c)))
  {
    hide DesiredSeed;
  }

  lemma MovesOrNot(w: World, k: Key, f: Fault)
    requires k in w.workers && w.workers[k].MoveSeed?
    ensures var a, b := Lookup(w.store.seeds, SeedKey(k)), Lookup(StoreAfter(w, k, f).seeds, SeedKey(k));
            var found := w.workers[k].found;
            b == a || (a == Some(found) && b == Some(Migrated(found, SecretName(w.workers[k].c))))
  {
    hide Migrated;
  }

  lemma KillsOrNot(w: World, k: Key, f: Fault)
    requires k in w.workers && w.workers[k].KillSeed?
    ensures var a, b := Lookup(w.store.seeds, SeedKey(k)), Lookup(StoreAfter(w, k, f).seeds, SeedKey(k));
            b == a || b == None
  {
  }

  lemma StepKeepsIntroduction(w: World, e: Event, k: Key)
    requires CellOK(k, View(w, k)) && SeedIntroduces(w.store, k) && !Edits(e, k)
    ensures SeedIntroduces(Apply(w, e).store, k)
  {
    if e.Work? {
      hide Advance, CellOK, Introduces;
      if e.k == k && k in w.workers {
        WorkKeepsIntroduction(w, k, e.fault);
      } else if e.k in w.workers {
        CallWrites(w, e.k, e.fault);
        CallFrame(w.store, e.k, w.workers[e.k], e.fault, k);
        assert At(StoreAfter(w, e.k, e.fault), k).seed == At(w.store, k).seed;
      }
    } else {
      hide CellOK, Introduces;
    }
  }

  // On every run from the start, until somebody edits it, the seed of a machine introduces that
  // machine.
  lemma {:induction false} SeedIntroducesItsMachine(w: World, es: seq<Event>, k: Key)
    requires Initial(w) && forall e | e in es :: !Edits(e, k)
    ensures SeedIntroduces(Run(w, es).store, k)
  {
    hide Introduces, CellOK, Apply, Inv;
    if es == [] {
      NoSeedsYet(w);
    } else {
      var front, e := es[..|es| - 1], es[|es| - 1];
      assert e in es && forall d | d in front :: d in es;
      SeedIntroducesItsMachine(w, front, k);
      InitialInv(w);
      RunKeepsInv(w, front);
      assert CellOK(k, View(Run(w, front), k)) by { InvAt(Run(w, front), k); }
      StepKeepsIntroduction(Run(w, front), e, k);
    }
  }

  lemma NoSeedsYet(w: World)
    requires Initial(w)
    ensures w.store.seeds == map[]
  {
  }
}
