/** The instrument registry: five tables that answer for one another. */
module Registry {
  import opened Domain

  type Instrument = string

  /** Metadata fields; an empty value is one the source treats as absent. */
  type Meta = map<string, string>

  datatype State = State(
    byKey: map<string, Instrument>,
    /** Instruments in the order their metadata first appeared. */
    order: seq<Instrument>,
    meta: map<Instrument, Meta>,
    aliases: map<string, Instrument>,
    keys: map<Instrument, set<string>>,
    primary: map<Instrument, string>)

  const EMPTY := State(map[], [], map[], map[], map[], map[])

  // ---- reading -----------------------------------------------------------------

  predicate IsSpace(c: char) {
    c == ' ' || c == '\t' || c == '\n' || c == '\r'
  }

  function Strip(s: string): string
    decreases |s|
  {
    if s == "" then ""
    else if IsSpace(s[0]) then Strip(s[1..])
    else if IsSpace(s[|s| - 1]) then Strip(s[..|s| - 1])
    else s
  }

  function Upper(s: string): string {
    if s == "" then ""
    else [if 'a' <= s[0] <= 'z' then (s[0] as int - 32) as char else s[0]] + Upper(s[1..])
  }

  function AliasKey(name: string): string {
    Upper(Strip(name))
  }

  /** Provider keys first, then aliases. */
  function Resolve(s: State, name: string): Option<Instrument> {
    if Strip(name) in s.byKey then Some(s.byKey[Strip(name)])
    else if AliasKey(name) in s.aliases then Some(s.aliases[AliasKey(name)])
    else None
  }

  function ProviderKey(s: State, i: Instrument): Option<string> {
    if i in s.primary then Some(s.primary[i]) else None
  }

  function KeysOf(s: State, i: Instrument): set<string> {
    if i in s.keys then s.keys[i] else {}
  }

  function Lookup(byKey: map<string, Instrument>, k: string): Option<Instrument> {
    if k in byKey then Some(byKey[k]) else None
  }

  // ---- what every write keeps ------------------------------------------------

  /** Every key is listed under its instrument, every primary is one of its
      instrument's keys, and the four instrument tables know the same instruments. */
  ghost predicate Consistent(s: State) {
    && (forall k :: k in s.byKey ==> s.byKey[k] in s.keys && k in s.keys[s.byKey[k]])
    && (forall i :: i in s.primary ==> i in s.keys && s.primary[i] in s.keys[i])
    && s.primary.Keys == s.keys.Keys == s.meta.Keys
    && (forall i :: i in s.order <==> i in s.meta)
  }

  /** Every listed key still resolves to the instrument it is listed under. */
  ghost predicate Live(s: State) {
    forall i, k {:trigger k in KeysOf(s, i)} :: k in KeysOf(s, i) ==> Lookup(s.byKey, k) == Some(i)
  }

  // ---- writing one instrument --------------------------------------------------

  /** A key may not be taken from another instrument. */
  predicate Collides(s: State, key: string, i: Instrument) {
    key in s.byKey && s.byKey[key] != i
  }

  /** Later metadata enriches the first registration's, and never its key. */
  function Enriched(m: Meta, extra: Meta): Meta {
    m + (map n | n in extra && n != "key" && extra[n] != "" :: extra[n])
  }

  function Seen(s: State, i: Instrument): seq<Instrument> {
    if i in s.meta then s.order else s.order + [i]
  }

  /** First key wins as primary; every key stays resolvable. */
  function Put(s: State, key: string, i: Instrument, meta: Meta): State {
    State(
      s.byKey[key := i],
      Seen(s, i),
      s.meta[i := if i in s.meta then Enriched(s.meta[i], meta) else meta],
      s.aliases,
      s.keys[i := KeysOf(s, i) + {key}],
      if i in s.primary then s.primary else s.primary[i := key])
  }

  /** The keys an authoritative registration takes out of reverse resolution. */
  function Stale(s: State, key: string, i: Instrument): set<string> {
    set k | k in KeysOf(s, i) && k != key && k in s.byKey && s.byKey[k] == i
  }

  /** The key becomes the instrument's only one. */
  function Replace(s: State, key: string, i: Instrument, meta: Meta): State {
    State(
      (s.byKey - Stale(s, key, i))[key := i],
      Seen(s, i),
      s.meta[i := meta],
      s.aliases,
      s.keys[i := {key}],
      s.primary[i := key])
  }

  /** Registering a key keeps the tables consistent, and every key live. */
  lemma PutKeepsConsistent(s: State, key: string, i: Instrument, meta: Meta)
    requires Consistent(s) && !Collides(s, key, i)
    ensures Consistent(Put(s, key, i, meta))
  {
  }

  lemma PutKeepsLive(s: State, key: string, i: Instrument, meta: Meta)
    requires Live(s) && !Collides(s, key, i)
    ensures Live(Put(s, key, i, meta))
  {
    var t := Put(s, key, i, meta);
    forall j, k | k in KeysOf(t, j) ensures Lookup(t.byKey, k) == Some(j) {
      assert k in KeysOf(s, j) || (j == i && k == key);
    }
  }

  /** So does an authoritative registration, which leaves the instrument one key. */
  lemma ReplaceKeepsConsistent(s: State, key: string, i: Instrument, meta: Meta)
    requires Consistent(s) && !Collides(s, key, i)
    ensures Consistent(Replace(s, key, i, meta))
  {
  }

  lemma ReplaceKeepsLive(s: State, key: string, i: Instrument, meta: Meta)
    requires Live(s) && !Collides(s, key, i)
    ensures Live(Replace(s, key, i, meta))
  {
    var t := Replace(s, key, i, meta);
    forall j, k | k in KeysOf(t, j) ensures Lookup(t.byKey, k) == Some(j) {
      assert if j == i then k == key else k in KeysOf(s, j);
    }
  }

  // ---- what readers see of a registration --------------------------------------------

  function FieldOf(s: State, i: Instrument, n: string): Option<string> {
    if i in s.meta && n in s.meta[i] then Some(s.meta[i][n]) else None
  }

  /** A reader finds the key under the instrument and every other key as before; a first key
      becomes the provider key and a later one changes none; a field given with a value is
      filled in, unless it is the key of a known instrument, and no field is lost. */
  ghost predicate Registers(s: State, t: State, key: string, i: Instrument, meta: Meta) {
    && (forall k :: Lookup(t.byKey, k) == if k == key then Some(i) else Lookup(s.byKey, k))
    && (forall j :: ProviderKey(t, j) ==
          if ProviderKey(s, j).Some? then ProviderKey(s, j) else if j == i then Some(key) else None)
    && (forall j, n :: FieldOf(t, j, n) ==
          if j == i && n in meta && (i !in s.meta || (n != "key" && meta[n] != "")) then Some(meta[n])
          else FieldOf(s, j, n))
    && t.aliases == s.aliases && t.order == s.order + (if i in s.meta then [] else [i])
  }

  lemma PutRegisters(s: State, key: string, i: Instrument, meta: Meta)
    requires Consistent(s)
    ensures Registers(s, Put(s, key, i, meta), key, i, meta)
  {
  }

  /** After an authoritative registration the key is the instrument's only one: it is the
      provider key, no other key leads to the instrument, and its fields are those given. */
  ghost predicate Repoints(s: State, t: State, key: string, i: Instrument, meta: Meta) {
    && (forall k :: Lookup(t.byKey, k) ==
          if k == key then Some(i) else if Lookup(s.byKey, k) == Some(i) then None else Lookup(s.byKey, k))
    && (forall j :: ProviderKey(t, j) == if j == i then Some(key) else ProviderKey(s, j))
    && (forall j, n :: FieldOf(t, j, n) ==
          if j != i then FieldOf(s, j, n) else if n in meta then Some(meta[n]) else None)
    && t.aliases == s.aliases
  }

  lemma ReplaceRepoints(s: State, key: string, i: Instrument, meta: Meta)
    requires Consistent(s)
    ensures Repoints(s, Replace(s, key, i, meta), key, i, meta)
  {
  }

  datatype Registration = Registration(key: string, instrument: Instrument, meta: Meta)

  /** Registrations one after another; a colliding one changes nothing. */
  function RegisterAll(s: State, rs: seq<Registration>): State {
    if rs == [] then s
    else
      var t, r := RegisterAll(s, rs[..|rs| - 1]), rs[|rs| - 1];
      if Collides(t, r.key, r.instrument) then t else Put(t, r.key, r.instrument, r.meta)
  }

  /** However many registrations follow, an instrument's first key stays its provider key and
      every key keeps leading where it led. */
  lemma {:induction false} FirstKeyStays(s: State, rs: seq<Registration>, i: Instrument, k: string)
    requires Consistent(s)
    ensures Consistent(RegisterAll(s, rs))
    ensures ProviderKey(s, i).Some? ==> ProviderKey(RegisterAll(s, rs), i) == ProviderKey(s, i)
    ensures Lookup(s.byKey, k).Some? ==> Lookup(RegisterAll(s, rs).byKey, k) == Lookup(s.byKey, k)
  {
    if rs != [] {
      var t, r := RegisterAll(s, rs[..|rs| - 1]), rs[|rs| - 1];
      FirstKeyStays(s, rs[..|rs| - 1], i, k);
      if !Collides(t, r.key, r.instrument) {
        PutKeepsConsistent(t, r.key, r.instrument, r.meta);
        PutRegisters(t, r.key, r.instrument, r.meta);
      }
    }
  }

  /** Names are the same alias whatever blanks surround them and whatever case they are in. */
  lemma {:induction false} UpperIsSettled(name: string)
    ensures |Upper(name)| == |name| && Upper(Upper(name)) == Upper(name)
    ensures forall n :: 0 <= n < |name| ==> !('a' <= Upper(name)[n] <= 'z')
    ensures forall n :: 0 <= n < |name| && !('a' <= name[n] <= 'z') ==> Upper(name)[n] == name[n]
  {
    if name != "" {
      UpperIsSettled(name[1..]);
      assert forall n :: 0 < n < |name| ==> name[n] == name[1..][n - 1];
      var c := [if 'a' <= name[0] <= 'z' then (name[0] as int - 32) as char else name[0]];
      assert Upper(name) == c + Upper(name[1..]) && Upper(name)[1..] == Upper(name[1..]);
    }
  }

  lemma AliasesIgnoreCaseAndBlanks()
    ensures AliasKey(" aZ1\t") == AliasKey("Az1") == "AZ1"
  {
    assert " aZ1\t"[1..] == "aZ1\t" && "aZ1\t"[..3] == "aZ1";
    assert Strip("aZ1") == "aZ1" && Strip("Az1") == "Az1" && Strip("aZ1\t") == "aZ1";
    assert "aZ1"[1..] == "Z1" && "Az1"[1..] == "z1" && "Z1"[1..] == "z1"[1..] == "1" && "1"[1..] == "";
    assert Upper("1") == "1" && Upper("Z1") == "Z1" && Upper("z1") == "Z1";
  }

  // ---- swapping in a fresh master ------------------------------------------------

  /** Keys already present keep their meaning. */
  function Default(byKey: map<string, Instrument>, ks: set<string>, i: Instrument): map<string, Instrument> {
    (map k | k in ks :: i) + byKey
  }

  /** The fresh state plus the instruments of `order` it does not define. */
  function Carry(cur: State, src: State, order: seq<Instrument>): State
    requires forall i :: i in order ==> i in cur.meta && i in cur.keys && i in cur.primary
  {
    if order == [] then src
    else
      var before, i := Carry(cur, src, order[..|order| - 1]), order[|order| - 1];
      if i in before.meta then before
      else
        State(Default(before.byKey, cur.keys[i], i), before.order + [i], before.meta[i := cur.meta[i]],
              before.aliases, before.keys[i := cur.keys[i]], before.primary[i := cur.primary[i]])
  }

  /** Names of instruments the master does not define, unless the master uses the name. */
  function CarriedAliases(cur: State, src: State): map<string, Instrument> {
    (map n | n in cur.aliases && cur.aliases[n] !in src.meta :: cur.aliases[n]) + src.aliases
  }

  function Reloaded(cur: State, src: State): State
    requires Consistent(cur)
  {
    Carry(cur, src, cur.order).(aliases := CarriedAliases(cur, src))
  }

  /** The first carried instrument that lists a key. */
  function FirstLister(cur: State, src: State, order: seq<Instrument>, k: string): Option<Instrument> {
    if order == [] then None
    else
      var e, i := FirstLister(cur, src, order[..|order| - 1], k), order[|order| - 1];
      if e.Some? then e
      else if i !in src.meta && k in KeysOf(cur, i) then Some(i)
      else None
  }

  /** Which instruments a reload knows. */
  lemma {:induction false} CarryKnows(cur: State, src: State, order: seq<Instrument>)
    requires forall i :: i in order ==> i in cur.meta && i in cur.keys && i in cur.primary
    ensures forall i :: i in Carry(cur, src, order).meta <==> i in src.meta || i in order
    ensures forall i :: i in Carry(cur, src, order).order <==> i in src.order || (i in order && i !in src.meta)
  {
    if order != [] {
      CarryKnows(cur, src, order[..|order| - 1]);
      assert order == order[..|order| - 1] + [order[|order| - 1]];
    }
  }

  /** What a reload holds for one instrument: the master's tables, or the current ones. */
  lemma {:induction false} CarryTakesOver(cur: State, src: State, order: seq<Instrument>, i: Instrument)
    requires forall i :: i in order ==> i in cur.meta && i in cur.keys && i in cur.primary
    ensures var t := Carry(cur, src, order);
      var from := if i in order && i !in src.meta then cur else src;
      && (i in t.keys <==> i in from.keys) && (i in from.keys ==> t.keys[i] == from.keys[i])
      && (i in t.primary <==> i in from.primary) && (i in from.primary ==> t.primary[i] == from.primary[i])
  {
    if order != [] {
      CarryTakesOver(cur, src, order[..|order| - 1], i);
      CarryKnows(cur, src, order[..|order| - 1]);
      assert order == order[..|order| - 1] + [order[|order| - 1]];
    }
  }

  lemma {:induction false} CarryTakesFields(cur: State, src: State, order: seq<Instrument>, i: Instrument)
    requires forall i :: i in order ==> i in cur.meta && i in cur.keys && i in cur.primary
    ensures var t := Carry(cur, src, order);
      && (i in t.meta <==> i in src.meta || i in order)
      && (i in t.meta ==> t.meta[i] == if i in src.meta then src.meta[i] else cur.meta[i])
  {
    if order != [] {
      var init := order[..|order| - 1];
      CarryTakesFields(cur, src, init, i);
      CarryTakesFields(cur, src, init, order[|order| - 1]);
      assert order == init + [order[|order| - 1]];
    }
  }

  /** What a key means after a reload: the master's word, else the first carried
      instrument that lists it. */
  lemma {:induction false} CarryResolves(cur: State, src: State, order: seq<Instrument>, k: string)
    requires forall i :: i in order ==> i in cur.meta && i in cur.keys && i in cur.primary
    ensures Lookup(Carry(cur, src, order).byKey, k)
      == if k in src.byKey then Some(src.byKey[k]) else FirstLister(cur, src, order, k)
  {
    if order != [] {
      var init, i := order[..|order| - 1], order[|order| - 1];
      CarryResolves(cur, src, init, k);
      CarryKnows(cur, src, init);
      FirstListerLists(cur, src, init, i, k);
    }
  }

  /** The first lister is carried and lists the key, and there is one if any does. */
  lemma {:induction false} FirstListerLists(cur: State, src: State, order: seq<Instrument>, i: Instrument, k: string)
    ensures var e := FirstLister(cur, src, order, k);
      && (e.Some? ==> e.value in order && e.value !in src.meta && k in KeysOf(cur, e.value))
      && (i in order && i !in src.meta && k in KeysOf(cur, i) ==> e.Some?)
  {
    if order != [] {
      FirstListerLists(cur, src, order[..|order| - 1], i, k);
      assert order == order[..|order| - 1] + [order[|order| - 1]];
    }
  }

  lemma ReloadListsKeys(cur: State, src: State, k: string)
    requires Consistent(cur) && Consistent(src)
    ensures var t := Reloaded(cur, src);
      k in t.byKey ==> t.byKey[k] in t.keys && k in t.keys[t.byKey[k]]
  {
    var t := Reloaded(cur, src);
    CarryResolves(cur, src, cur.order, k);
    if k in t.byKey {
      FirstListerLists(cur, src, cur.order, t.byKey[k], k);
      CarryTakesOver(cur, src, cur.order, t.byKey[k]);
    }
  }

  lemma ReloadKnows(cur: State, src: State, i: Instrument)
    requires Consistent(cur) && Consistent(src)
    ensures var t := Reloaded(cur, src);
      && (i in t.primary <==> i in t.meta) && (i in t.keys <==> i in t.meta) && (i in t.order <==> i in t.meta)
      && (i in t.primary ==> t.primary[i] in t.keys[i])
  {
    CarryKnows(cur, src, cur.order);
    CarryTakesOver(cur, src, cur.order, i);
  }

  /** A reload keeps the tables consistent. */
  lemma ReloadKeepsConsistent(cur: State, src: State)
    requires Consistent(cur) && Consistent(src)
    ensures Consistent(Reloaded(cur, src))
  {
    var t := Reloaded(cur, src);
    forall k | k in t.byKey ensures t.byKey[k] in t.keys && k in t.keys[t.byKey[k]] {
      ReloadListsKeys(cur, src, k);
    }
    forall i
      ensures (i in t.primary <==> i in t.meta) && (i in t.keys <==> i in t.meta) && (i in t.order <==> i in t.meta)
      ensures i in t.primary ==> t.primary[i] in t.keys[i]
    {
      ReloadKnows(cur, src, i);
    }
  }

  /** After a reload an instrument has the master's provider key and fields if the master
      defines it, and otherwise the ones it had. */
  lemma ReloadReads(cur: State, src: State, i: Instrument, n: string)
    requires Consistent(cur) && Consistent(src)
    ensures var t, from := Reloaded(cur, src), if i in src.meta then src else cur;
      ProviderKey(t, i) == ProviderKey(from, i) && FieldOf(t, i, n) == FieldOf(from, i, n)
  {
    CarryTakesOver(cur, src, cur.order, i);
    CarryTakesFields(cur, src, cur.order, i);
  }

  /** A name leads where the master says; a name the master does not use still leads where it
      led, if and only if that is not an instrument the master defines. */
  lemma AliasesAfterReload(cur: State, src: State, n: string, i: Instrument)
    requires Consistent(cur)
    ensures var t := Reloaded(cur, src);
      Lookup(t.aliases, n) == Some(i) <==>
        if n in src.aliases then Lookup(src.aliases, n) == Some(i)
        else Lookup(cur.aliases, n) == Some(i) && i !in src.meta
  {
  }

  /** Every key of the fresh master means what the master says, and no other key
      leads to an instrument the master defines: a rotated id re-points. */
  lemma MasterHasItsSay(cur: State, src: State, k: string)
    requires Consistent(cur)
    ensures var t := Reloaded(cur, src);
      && (k in src.byKey ==> Lookup(t.byKey, k) == Some(src.byKey[k]))
      && (k in t.byKey && t.byKey[k] in src.meta ==> k in src.byKey)
  {
    CarryResolves(cur, src, cur.order, k);
    FirstListerLists(cur, src, cur.order, "", k);
  }

  // ---- provider_key and resolve ----------------------------------------------------

  /** The instrument's provider key leads back to it. */
  predicate RoundTrips(s: State, i: Instrument) {
    i in s.primary && Lookup(s.byKey, s.primary[i]) == Some(i)
  }

  /** That is what the two reads do, for a key without surrounding blanks that no alias of
      the same spelling stands in for. */
  lemma RoundTripIsResolve(s: State, i: Instrument)
    ensures i in s.primary && Strip(s.primary[i]) == s.primary[i]
        && (s.primary[i] in s.byKey || AliasKey(s.primary[i]) !in s.aliases || s.aliases[AliasKey(s.primary[i])] != i)
      ==> (RoundTrips(s, i) <==> Resolve(s, ProviderKey(s, i).value) == Some(i))
  {
  }

  /** Live tables round-trip every instrument. */
  lemma LiveRoundTrips(s: State, i: Instrument)
    requires Consistent(s) && Live(s) && i in s.meta
    ensures RoundTrips(s, i)
  {
    assert s.primary[i] in KeysOf(s, i);
  }

  /** With live tables only one instrument lists a key. */
  lemma {:induction false} LiveHasOneLister(cur: State, src: State, order: seq<Instrument>, i: Instrument, k: string)
    requires Live(cur) && i in order && i !in src.meta && k in KeysOf(cur, i)
    ensures FirstLister(cur, src, order, k) == Some(i)
  {
    FirstListerLists(cur, src, order, i, k);
    assert k in KeysOf(cur, FirstLister(cur, src, order, k).value);
  }

  /** A carried instrument round-trips exactly when the master did not reassign its
      key and no carried instrument that comes first lists it too; with live
      tables, exactly when the master did not reassign it. */
  lemma CarriedRoundTrips(cur: State, src: State, i: Instrument)
    requires Consistent(cur) && Consistent(src) && i in cur.meta && i !in src.meta
    ensures var p := cur.primary[i];
      RoundTrips(Reloaded(cur, src), i)
      <==> p !in src.byKey && FirstLister(cur, src, cur.order, p) == Some(i)
    ensures Live(cur) ==> (RoundTrips(Reloaded(cur, src), i) <==> cur.primary[i] !in src.byKey)
  {
    var p := cur.primary[i];
    CarryTakesOver(cur, src, cur.order, i);
    CarryResolves(cur, src, cur.order, p);
    if Live(cur) {
      LiveHasOneLister(cur, src, cur.order, i, p);
    }
  }

  /** An instrument the master defines round-trips if and only if it does in the master. */
  lemma FreshRoundTrips(cur: State, src: State, i: Instrument)
    requires Consistent(cur) && Consistent(src) && i in src.meta
    ensures RoundTrips(Reloaded(cur, src), i) <==> RoundTrips(src, i)
  {
    CarryTakesOver(cur, src, cur.order, i);
    CarryResolves(cur, src, cur.order, src.primary[i]);
    FirstListerLists(cur, src, cur.order, i, src.primary[i]);
  }

  /** Whether a listed key still leads to its instrument after a reload. */
  lemma KeyAfterReload(cur: State, src: State, i: Instrument, k: string)
    requires Consistent(cur) && Consistent(src) && Live(cur) && Live(src)
    ensures var t := Reloaded(cur, src);
      && (k in KeysOf(t, i) <==> k in KeysOf(if i in src.meta then src else cur, i))
      && (i in src.meta && k in KeysOf(src, i) ==> Lookup(t.byKey, k) == Some(i))
      && (i !in src.meta && k in KeysOf(cur, i) ==> (Lookup(t.byKey, k) == Some(i) <==> k !in src.byKey))
  {
    CarryTakesOver(cur, src, cur.order, i);
    CarryResolves(cur, src, cur.order, k);
    if i !in src.meta && k in KeysOf(cur, i) {
      LiveHasOneLister(cur, src, cur.order, i, k);
    }
  }

  /** A reload leaves every key live exactly when the master reassigned no carried key. */
  lemma ReloadIsLive(cur: State, src: State)
    requires Consistent(cur) && Consistent(src) && Live(cur) && Live(src)
    ensures Live(Reloaded(cur, src)) <==>
      forall i, k :: i !in src.meta && k in KeysOf(cur, i) ==> k !in src.byKey
  {
    var t := Reloaded(cur, src);
    forall i, k
      ensures k in KeysOf(t, i) <==> k in KeysOf(if i in src.meta then src else cur, i)
      ensures i in src.meta && k in KeysOf(src, i) ==> Lookup(t.byKey, k) == Some(i)
      ensures i !in src.meta && k in KeysOf(cur, i) ==> (Lookup(t.byKey, k) == Some(i) <==> k !in src.byKey)
    {
      KeyAfterReload(cur, src, i, k);
    }
  }

  /** `a` is carried with a key that now belongs to `b`, and nothing else is known. */
  ghost predicate Dispossessed(s: State, p: string, a: Instrument, b: Instrument) {
    && s.order == [b, a]
    && KeysOf(s, a) == {p} && KeysOf(s, b) == {p}
    && s.byKey == map[p := b]
  }

  lemma CarryOne(cur: State, src: State, i: Instrument)
    requires Consistent(cur) && cur.order == [i] && i !in src.meta
    ensures Carry(cur, src, cur.order)
      == State(Default(src.byKey, cur.keys[i], i), src.order + [i], src.meta[i := cur.meta[i]],
               src.aliases, src.keys[i := cur.keys[i]], src.primary[i := cur.primary[i]])
  {
    assert cur.order[..0] == [];
    assert cur.order[0] == i;
  }

  /** One instrument with one key. */
  ghost predicate Single(s: State, p: string, i: Instrument) {
    && Consistent(s) && s.order == [i] && s.byKey == map[p := i] && i in s.keys && s.keys[i] == {p}
  }

  lemma FirstRegistration(p: string, i: Instrument)
    ensures Single(Put(EMPTY, p, i, map[]), p, i)
  {
    PutKeepsConsistent(EMPTY, p, i, map[]);
  }

  lemma DefaultKeeps(byKey: map<string, Instrument>, ks: set<string>, i: Instrument)
    requires ks <= byKey.Keys
    ensures Default(byKey, ks, i) == byKey
  {
  }

  lemma ReassignedByReload(first: State, master: State, p: string, a: Instrument, b: Instrument)
    requires Single(first, p, a) && Single(master, p, b) && a != b
    ensures Dispossessed(Reloaded(first, master), p, a, b)
  {
    assert a !in master.order && a in first.order && b in master.order;
    assert a !in master.meta && a in first.meta;
    CarryOne(first, master, a);
    DefaultKeeps(master.byKey, first.keys[a], a);
  }

  lemma KeyTakenUp(s: State, p: string, q: string, a: Instrument, b: Instrument, c: Instrument)
    requires Consistent(s) && Dispossessed(s, p, a, b) && p != q && a != b && b != c && a != c
    ensures var moved := Replace(s, q, b, map[]);
      var taken := Put(moved, p, c, map[]);
      && !Collides(s, q, b) && !Collides(moved, p, c)
      && Consistent(taken) && taken.order == [b, a, c]
      && p !in KeysOf(taken, b) && p in KeysOf(taken, a) && RoundTrips(taken, c)
  {
    var moved := Replace(s, q, b, map[]);
    ReplaceKeepsConsistent(s, q, b, map[]);
    assert p in Stale(s, q, b);
    assert a in s.order && b in s.order && c !in s.order;
    PutKeepsConsistent(moved, p, c, map[]);
  }

  /** Once a master has reassigned a key, a later reload can hand it back: `p` goes
      from `a` to `b` by a reload, `b` moves on to `q`, `c` registers `p`, and an
      empty master then returns `p` to `a` although it says nothing about it. */
  lemma ReloadCanRevertAKey(p: string, q: string, a: Instrument, b: Instrument, c: Instrument)
    requires p != q && a != b && b != c && a != c
    ensures Consistent(Put(EMPTY, p, a, map[]))
    ensures var reassigned := Reloaded(Put(EMPTY, p, a, map[]), Put(EMPTY, p, b, map[]));
      var moved := Replace(reassigned, q, b, map[]);
      var taken := Put(moved, p, c, map[]);
      && !Collides(reassigned, q, b) && !Collides(moved, p, c)
      && Consistent(taken) && RoundTrips(taken, c)
      && Lookup(Reloaded(taken, EMPTY).byKey, p) == Some(a)
  {
    FirstRegistration(p, a);
    FirstRegistration(p, b);
    ReassignedByReload(Put(EMPTY, p, a, map[]), Put(EMPTY, p, b, map[]), p, a, b);
    ReloadKeepsConsistent(Put(EMPTY, p, a, map[]), Put(EMPTY, p, b, map[]));
    var reassigned := Reloaded(Put(EMPTY, p, a, map[]), Put(EMPTY, p, b, map[]));
    KeyTakenUp(reassigned, p, q, a, b, c);
    RevertedKey(Put(Replace(reassigned, q, b, map[]), p, c, map[]), p, a, b, c);
  }

  lemma RevertedKey(s: State, k: string, a: Instrument, b: Instrument, c: Instrument)
    requires Consistent(s) && s.order == [b, a, c] && k !in KeysOf(s, b) && k in KeysOf(s, a)
    ensures Lookup(Reloaded(s, EMPTY).byKey, k) == Some(a)
  {
    CarryResolves(s, EMPTY, s.order, k);
    assert s.order[..2] == [b, a] && [b, a][..1] == [b] && [b][..0] == [];
    assert FirstLister(s, EMPTY, [b], k) == None;
    assert FirstLister(s, EMPTY, [b, a], k) == Some(a);
  }

  // ---- the registry object -------------------------------------------------------

  class InstrumentRegistry {
    var state: State

    constructor ()
      ensures state == EMPTY && Consistent(state) && Live(state)
    {
      state := EMPTY;
    }

    /** Register a key, given in the metadata or derived from the instrument. A key
        that belongs to another instrument is refused, with nothing changed. */
    method Register(i: Instrument, meta: Meta, derived: string) returns (ok: bool)
      requires Consistent(state)
      modifies this
      ensures Consistent(state) && (old(Live(state)) ==> Live(state))
      ensures var key := if "key" in meta && meta["key"] != "" then meta["key"] else derived;
        && ok == !Collides(old(state), key, i)
        && state == (if ok then Put(old(state), key, i, meta) else old(state))
        && (ok ==> Registers(old(state), state, key, i, meta))
    {
      var key := if "key" in meta && meta["key"] != "" then meta["key"] else derived;
      if key in state.byKey && state.byKey[key] != i {
        return false;
      }
      PutKeepsConsistent(state, key, i, meta);
      PutRegisters(state, key, i, meta);
      if Live(state) {
        PutKeepsLive(state, key, i, meta);
      }
      var primary := if i in state.primary then state.primary else state.primary[i := key];
      var keys := state.keys[i := KeysOf(state, i) + {key}];
      var merged := if i in state.meta then Enriched(state.meta[i], meta) else meta;
      state := State(state.byKey[key := i], Seen(state, i), state.meta[i := merged], state.aliases, keys, primary);
      return true;
    }

    /** The fresh master's key becomes the only one; older ones stop resolving. */
    method RegisterAuthoritative(i: Instrument, key: string, meta: Option<Meta>) returns (ok: bool)
      requires Consistent(state)
      modifies this
      ensures Consistent(state) && (old(Live(state)) ==> Live(state))
      ensures ok == !Collides(old(state), key, i)
      ensures state == if ok
        then Replace(old(state), key, i, if meta.Some? then meta.value else map["key" := key]) else old(state)
      ensures ok ==> Repoints(old(state), state, key, i, if meta.Some? then meta.value else map["key" := key])
    {
      if key in state.byKey && state.byKey[key] != i {
        return false;
      }
      var fields := if meta.Some? then meta.value else map["key" := key];
      ReplaceKeepsConsistent(state, key, i, fields);
      ReplaceRepoints(state, key, i, fields);
      if Live(state) {
        ReplaceKeepsLive(state, key, i, fields);
      }
      var byKey := DropStale(key, i);
      state := State(byKey[key := i], Seen(state, i), state.meta[i := fields], state.aliases,
                     state.keys[i := {key}], state.primary[i := key]);
      return true;
    }

    /** One by one, the instrument's other keys that still lead to it. */
    method DropStale(key: string, i: Instrument) returns (byKey: map<string, Instrument>)
      ensures byKey == state.byKey - Stale(state, key, i)
    {
      byKey := state.byKey;
      var todo := KeysOf(state, i);
      while todo != {}
        invariant todo <= KeysOf(state, i)
        invariant byKey == state.byKey - (Stale(state, key, i) - todo)
        decreases |todo|
      {
        var k :| k in todo;
        todo := todo - {k};
        if k != key && k in byKey && byKey[k] == i {
          byKey := byKey - {k};
        }
      }
    }

    method AddAlias(name: string, i: Instrument)
      modifies this
      ensures state == old(state).(aliases := old(state).aliases[AliasKey(name) := i])
      ensures Resolve(state, name) == Some(i) <==>
        Strip(name) !in state.byKey || state.byKey[Strip(name)] == i
    {
      state := state.(aliases := state.aliases[AliasKey(name) := i]);
    }

    /** Swap in a fresh master, carrying over what it does not define. */
    method ReplaceAll(other: InstrumentRegistry)
      requires Consistent(state) && Consistent(other.state)
      modifies this
      ensures state == Reloaded(old(state), old(other.state))
      ensures Consistent(state)
    {
      var cur, src := state, other.state;
      ReloadKeepsConsistent(cur, src);
      var byKey, order, meta, keys, primary := src.byKey, src.order, src.meta, src.keys, src.primary;
      for n := 0 to |cur.order|
        invariant State(byKey, order, meta, src.aliases, keys, primary) == Carry(cur, src, cur.order[..n])
      {
        assert cur.order[..n + 1][..n] == cur.order[..n];
        var i := cur.order[n];
        if i !in meta {
          byKey := Default(byKey, cur.keys[i], i);
          order := order + [i];
          meta := meta[i := cur.meta[i]];
          keys := keys[i := cur.keys[i]];
          primary := primary[i := cur.primary[i]];
        }
      }
      assert cur.order[..|cur.order|] == cur.order;
      state := State(byKey, order, meta, CarriedAliases(cur, src), keys, primary);
    }
  }
}
