/** Merging of registry credentials: one docker configuration into another, one secret into
    another, and the secret that accumulates over the runs of the kernel module controller. */
module DockerConfig {
  import opened Conditions

  /** Decoded JSON. */
  datatype Json = Null | Object(fields: Fields) | Other(text: string)

  type Fields = map<string, Json>

  /** The bytes of a data entry: none at all, not JSON, or JSON. */
  datatype Document = Empty | Malformed | Parsed(json: Json)

  datatype SecretType = Unset | DockerConfigJson | Dockercfg | OtherType(name: string)

  /** Why a merge fails; `NilMap` is the panic of writing to a nil map. */
  datatype Failure = InvalidDestination | InvalidSource | WrongSourceType | NilMap

  datatype Result<+T> = Ok(value: T) | Error(failure: Failure)

  const AUTHS := "auths"
  const CONFIG_KEY := ".dockerconfigjson"

  // ---- one configuration into another ----

  // The credentials of a configuration: its auths object, if it has one.
  function Auths(config: Fields): Fields {
    if AUTHS in config && config[AUTHS].Object? then config[AUTHS].fields else map[]
  }

  // The value a key of the source gets in the destination.
  function Taken(dest: Fields, src: Fields, k: string): Json
    requires k in src
  {
    if k == AUTHS then Object(Auths(dest) + Auths(src)) else src[k]
  }

  // The destination takes over all keys of the source.
  function Merged(dest: Fields, src: Fields): Fields {
    map k | k in dest.Keys + src.Keys :: if k in src then Taken(dest, src, k) else dest[k]
  }

  // The result so far, when the keys `left` of the source have not been visited yet.
  predicate Partly(dest: Fields, src: Fields, left: set<string>, r: Fields) {
    && r.Keys == dest.Keys + (src.Keys - left)
    && forall k :: k in r ==> r[k] == if k in src && k !in left then Taken(dest, src, k) else dest[k]
  }

  lemma PartlyMore(dest: Fields, src: Fields, left: set<string>, r: Fields, k: string)
    requires left <= src.Keys && k in left && Partly(dest, src, left, r)
    ensures Partly(dest, src, left - {k}, r[k := Taken(dest, src, k)])
    ensures k == AUTHS ==> Auths(r) == Auths(dest)
  {
  }

  lemma PartlyDone(dest: Fields, src: Fields, r: Fields)
    requires Partly(dest, src, {}, r)
    ensures r == Merged(dest, src)
  {
  }

  method MergeAuths(dest: Fields, src: Fields) returns (auths: Fields)
    ensures auths == dest + src
  {
    auths := dest;
    var left := src.Keys;
    while left != {}
      invariant left <= src.Keys
      invariant auths.Keys == dest.Keys + (src.Keys - left)
      invariant forall r :: r in auths ==> auths[r] == if r in src && r !in left then src[r] else dest[r]
      decreases |left|
    {
      var registry :| registry in left;
      auths := auths[registry := src[registry]];
      left := left - {registry};
    }
  }

  // The merge of decoded configurations: the keys are visited in an arbitrary order, and the
  // result does not depend on it.
  method MergeConfigs(dest: Fields, src: Fields) returns (r: Fields)
    ensures r == Merged(dest, src)
    ensures forall k :: k != "auths" ==>
      (k in r <==> k in src || k in dest) && (k in r ==> r[k] == if k in src then src[k] else dest[k])
  {
    r := dest;
    var left := src.Keys;
    while left != {}
      invariant left <= src.Keys && Partly(dest, src, left, r)
      decreases |left|
    {
      var k :| k in left;
      PartlyMore(dest, src, left, r, k);
      if k == AUTHS {
        var auths := MergeAuths(Auths(r), Auths(src));
        r := r[AUTHS := Object(auths)];
      } else {
        r := r[k := src[k]];
      }
      left := left - {k};
    }
    PartlyDone(dest, src, r);
  }

  // Every key but the credentials: the source's value wins, and no key is lost.
  lemma OtherKeysOfMerged(dest: Fields, src: Fields, k: string)
    requires k != "auths"
    ensures k in Merged(dest, src) <==> k in src || k in dest
    ensures k in src ==> Merged(dest, src)[k] == src[k]
    ensures k !in src && k in dest ==> Merged(dest, src)[k] == dest[k]
  {
  }

  // The source's credential wins, and no other is touched.
  lemma AuthsOfMerged(dest: Fields, src: Fields)
    ensures Auths(Merged(dest, src)) == if AUTHS in src then Auths(dest) + Auths(src) else Auths(dest)
  {
  }

  lemma AuthsAssociate(a: Fields, b: Fields, c: Fields)
    ensures Auths(a) + Auths(b) + Auths(c) == Auths(a) + (Auths(b) + Auths(c))
  {
  }

  lemma MergedAt(dest: Fields, src: Fields, k: string)
    ensures k in Merged(dest, src) <==> k in dest || k in src
    ensures k in Merged(dest, src) ==> Merged(dest, src)[k] == if k in src then Taken(dest, src, k) else dest[k]
  {
  }

  lemma MergeIsAssociativeAt(a: Fields, b: Fields, c: Fields, k: string)
    ensures var l, r := Merged(Merged(a, b), c), Merged(a, Merged(b, c));
      (k in l <==> k in r) && (k in l ==> l[k] == r[k])
  {
    MergedAt(a, b, k);
    MergedAt(b, c, k);
    MergedAt(Merged(a, b), c, k);
    MergedAt(a, Merged(b, c), k);
    AuthsOfMerged(a, b);
    AuthsOfMerged(b, c);
    AuthsAssociate(a, b, c);
  }

  lemma MergeIsAssociative(a: Fields, b: Fields, c: Fields)
    ensures Merged(Merged(a, b), c) == Merged(a, Merged(b, c))
  {
    forall k {
      MergeIsAssociativeAt(a, b, c, k);
    }
  }

  // Merging the same source twice is merging it once.
  lemma MergeIsIdempotent(dest: Fields, src: Fields)
    ensures Merged(Merged(dest, src), src) == Merged(dest, src)
  {
    AuthsOfMerged(dest, src);
    assert Auths(dest) + Auths(src) + Auths(src) == Auths(dest) + Auths(src);
  }

  // ---- documents ----

  // A destination without bytes is an empty configuration; JSON null is a nil map.
  function Decode(d: Document, failure: Failure): Result<Option<Fields>> {
    match d
    case Empty => Ok(Some(map[]))
    case Malformed => Error(failure)
    case Parsed(Object(fields)) => Ok(Some(fields))
    case Parsed(Null) => Ok(None)
    case Parsed(Other(_)) => Error(failure)
  }

  function MergeDocuments(dest: Document, src: Document): Result<Document> {
    var d := Decode(dest, InvalidDestination);
    if d.Error? then Error(d.failure) else
    var s := Decode(src, InvalidSource);
    if s.Error? then Error(s.failure) else
    var fields := if s.value.Some? then s.value.value else map[];
    if d.value.Some? then Ok(Parsed(Object(Merged(d.value.value, fields))))
    else if fields == map[] then Ok(Parsed(Null))
    else Error(NilMap)
  }

  // The older format, a bare object of registries, is wrapped; the newer one stays.
  function Convert(d: Document): Result<Document> {
    match d
    case Parsed(Object(fields)) => if AUTHS in fields then Ok(d) else Ok(Parsed(Object(map[AUTHS := Object(fields)])))
    case Parsed(Null) => Ok(Parsed(Object(map[AUTHS := Null])))
    case _ => Error(InvalidSource)
  }

  // One data entry of a source merged into the destination.
  function MergeEntry(dest: Document, entry: Document): Result<Document> {
    var n := Convert(entry);
    if n.Error? then Error(n.failure) else MergeDocuments(dest, n.value)
  }

  function MergeEntries(dest: Document, entries: seq<Document>): Result<Document>
    decreases |entries|
  {
    if entries == [] then Ok(dest)
    else
      var r := MergeEntry(dest, entries[0]);
      if r.Error? then r else MergeEntries(r.value, entries[1..])
  }

  lemma {:induction false} MergeEntriesMore(dest: Document, entries: seq<Document>, entry: Document)
    ensures MergeEntries(dest, entries + [entry]) ==
      var r := MergeEntries(dest, entries); if r.Error? then r else MergeEntry(r.value, entry)
    decreases |entries|
  {
    if entries == [] {
      assert [entry][1..] == [];
      assert [] + [entry] == [entry];
      var r := MergeEntry(dest, entry);
      assert r.Ok? ==> MergeEntries(r.value, []) == r;
    } else {
      assert (entries + [entry])[1..] == entries[1..] + [entry];
      var r := MergeEntry(dest, entries[0]);
      if r.Ok? {
        MergeEntriesMore(r.value, entries[1..], entry);
      }
    }
  }

  predicate IsDockerType(kind: SecretType) {
    kind == DockerConfigJson || kind == Dockercfg
  }

  // ---- secrets ----

  class Secret {
    var kind: SecretType
    var data: Option<map<string, Document>>

    constructor ()
      ensures kind == Unset && data == None
    {
      kind, data := Unset, None;
    }

    function Config(): Document
      reads this
    {
      if data.Some? && CONFIG_KEY in data.value then data.value[CONFIG_KEY] else Empty
    }

    // One entry of a source; an entry that fails leaves the configuration as it is.
    method MergeOne(entry: Document) returns (failure: Option<Failure>)
      requires data.Some?
      modifies this`data
      ensures data.Some? && SameButConfig(old(data), data)
      ensures MergeEntry(old(Config()), entry) == if failure.Some? then Error(failure.value) else Ok(Config())
      ensures failure.Some? ==> data == old(data)
    {
      var merged := MergeEntry(Config(), entry);
      if merged.Error? {
        return Some(merged.failure);
      }
      data := Some(data.value[CONFIG_KEY := merged.value]);
      failure := None;
    }

    // MergeDockerSecrets: all entries of the source, in an arbitrary order, go into the one
    // configuration of this secret.  `visited` is that order.
    method MergeFrom(srcKind: SecretType, srcData: map<string, Document>)
      returns (failure: Option<Failure>, ghost visited: seq<string>)
      modifies this
      ensures !IsDockerType(srcKind) ==> failure == Some(WrongSourceType) && kind == old(kind) && data == old(data)
      ensures IsDockerType(srcKind) ==>
        && (forall k :: k in visited ==> k in srcData) && NoRepeats(visited)
        && (failure.None? ==> forall k :: k in srcData ==> k in visited)
        && MergeEntries(old(Config()), Entries(srcData, visited)) ==
           if failure.Some? then Error(failure.value) else Ok(Config())
      ensures IsDockerType(srcKind) ==> kind == if old(kind) == Unset then DockerConfigJson else old(kind)
      ensures SameButConfig(old(data), data)
    {
      visited := [];
      if !IsDockerType(srcKind) {
        return Some(WrongSourceType), visited;
      }
      if kind == Unset {
        kind := DockerConfigJson;
      }
      if data.None? {
        data := Some(map[]);
      }
      var left := srcData.Keys;
      while left != {}
        invariant kind == if old(kind) == Unset then DockerConfigJson else old(kind)
        invariant data.Some? && SameButConfig(old(data), data) && left <= srcData.Keys
        invariant NoRepeats(visited) && forall k :: k in visited <==> k in srcData.Keys - left
        invariant MergeEntries(old(Config()), Entries(srcData, visited)) == Ok(Config())
        decreases |left|
      {
        var k :| k in left;
        MergeEntriesMore(old(Config()), Entries(srcData, visited), srcData[k]);
        EntriesMore(srcData, visited, k);
        NoRepeatsMore(visited, k);
        visited := visited + [k];
        left := left - {k};
        failure := MergeOne(srcData[k]);
        if failure.Some? {
          return failure, visited;
        }
      }
      failure := None;
    }
  }

  predicate NoRepeats(names: seq<string>) {
    forall i, j :: 0 <= i < j < |names| ==> names[i] != names[j]
  }

  lemma NoRepeatsMore(names: seq<string>, name: string)
    requires NoRepeats(names) && name !in names
    ensures NoRepeats(names + [name])
  {
  }

  // Entries other than the configuration are kept.
  predicate SameButConfig(before: Option<map<string, Document>>, after: Option<map<string, Document>>) {
    before.Some? ==> after.Some? && forall k :: k in before.value && k != CONFIG_KEY ==>
      k in after.value && after.value[k] == before.value[k]
  }

  function Entries(data: map<string, Document>, order: seq<string>): (r: seq<Document>)
    requires forall k :: k in order ==> k in data
    ensures |r| == |order| && forall i :: 0 <= i < |r| ==> r[i] == data[order[i]]
  {
    seq(|order|, i requires 0 <= i < |order| => data[order[i]])
  }

  lemma EntriesMore(data: map<string, Document>, order: seq<string>, k: string)
    requires (forall x :: x in order ==> x in data) && k in data
    ensures Entries(data, order + [k]) == Entries(data, order) + [data[k]]
  {
  }

  // ---- the accumulated secret ----

  /** A secret with a single data entry, as pull secrets have. */
  datatype Source = Source(kind: SecretType, key: string, document: Document)

  function MergeSource(dest: Document, s: Source): Result<Document> {
    if !IsDockerType(s.kind) then Error(WrongSourceType) else MergeEntry(dest, s.document)
  }

  // The IBM pull secret first, then the registry secret.
  function MergeBoth(dest: Document, pull: Source, registry: Source): Result<Document> {
    var r := MergeSource(dest, pull);
    if r.Error? then r else MergeSource(r.value, registry)
  }

  method MergeSingle(secret: Secret, source: Source) returns (failure: Option<Failure>)
    modifies secret
    ensures MergeSource(old(secret.Config()), source) ==
      if failure.Some? then Error(failure.value) else Ok(secret.Config())
  {
    ghost var visited;
    var entries := map[source.key := source.document];
    failure, visited := secret.MergeFrom(source.kind, entries);
    if IsDockerType(source.kind) {
      OnlyOrder(source.key, visited);
      MergeOneEntry(old(secret.Config()), entries, visited, source.key);
    }
  }

  lemma OnlyOrder(key: string, visited: seq<string>)
    ensures NoRepeats(visited) && (forall k :: k in visited ==> k == key) ==> visited == [] || visited == [key]
  {
    if |visited| >= 2 {
      assert visited[0] in visited && visited[1] in visited;
    } else if |visited| == 1 {
      assert visited[0] in visited;
    }
  }

  lemma MergeOneEntry(dest: Document, entries: map<string, Document>, visited: seq<string>, key: string)
    requires key in entries && visited == [key]
    ensures MergeEntries(dest, Entries(entries, visited)) == MergeEntry(dest, entries[key])
  {
    assert Entries(entries, visited) == [entries[key]];
    MergeEntriesMore(dest, [], entries[key]);
    assert [] + [entries[key]] == [entries[key]];
  }

  // getMergedRegistrySecret, once the three secrets are fetched: `secret` is the stored one, or new.
  method MergeRegistrySecret(secret: Secret, pull: Source, registry: Source) returns (failure: Option<Failure>)
    modifies secret
    ensures MergeBoth(old(secret.Config()), pull, registry) ==
      if failure.Some? then Error(failure.value) else Ok(secret.Config())
  {
    failure := MergeSingle(secret, pull);
    if failure.None? {
      failure := MergeSingle(secret, registry);
    }
  }

  // ---- over many runs ----

  /** One run of the controller: what it fetched and whether the result was stored. */
  datatype Cycle = Cycle(pull: Source, registry: Source, stored: bool)

  predicate Counts(dest: Document, r: Cycle) {
    r.stored && MergeBoth(dest, r.pull, r.registry).Ok?
  }

  function StoredAfter(dest: Document, r: Cycle): Document {
    if Counts(dest, r) then MergeBoth(dest, r.pull, r.registry).value else dest
  }

  function After(dest: Document, cycles: seq<Cycle>): Document
    decreases |cycles|
  {
    if cycles == [] then dest else After(StoredAfter(dest, cycles[0]), cycles[1..])
  }

  // The credentials a stored configuration holds, registry by registry.
  function Credentials(d: Document): Fields {
    if d.Parsed? && d.json.Object? then Auths(d.json.fields) else map[]
  }

  // The registries a source supplies: those under "auths", or in the older format all its keys.
  function Supplied(s: Source): Fields {
    match s.document
    case Parsed(Object(fields)) =>
      if "auths" !in fields then fields
      else if fields["auths"].Object? then fields["auths"].fields
      else map[]
    case _ => map[]
  }

  // What the cycles that count supplied, oldest first.
  function Supplies(dest: Document, cycles: seq<Cycle>): seq<Fields>
    decreases |cycles|
  {
    if cycles == [] then []
    else
      (if Counts(dest, cycles[0]) then [Supplied(cycles[0].pull), Supplied(cycles[0].registry)] else [])
      + Supplies(StoredAfter(dest, cycles[0]), cycles[1..])
  }

  // The credential of the latest supplier that has the registry.
  function Latest(supplies: seq<Fields>, registry: string): Option<Json>
    decreases |supplies|
  {
    if supplies == [] then None
    else
      var later := Latest(supplies[1..], registry);
      if later.Some? then later
      else if registry in supplies[0] then Some(supplies[0][registry])
      else None
  }

  // A merge succeeds exactly if the stored configuration is an object or empty and the source is
  // a docker secret with a JSON object or null in it.
  lemma MergeSucceeds(dest: Document, s: Source)
    ensures MergeSource(dest, s).Ok? <==>
      && (dest.Empty? || (dest.Parsed? && dest.json.Object?))
      && (s.kind == DockerConfigJson || s.kind == Dockercfg) && s.document.Parsed? && !s.document.json.Other?
    ensures MergeSource(dest, s).Ok? ==>
      var r := MergeSource(dest, s).value; r.Parsed? && r.json.Object?
  {
    if s.document.Parsed? && !s.document.json.Other? {
      var n := Convert(s.document).value;
      assert AUTHS in n.json.fields;
    }
  }

  // Which failure is reported otherwise: that of the source's type comes first, then its content, then
  // that of the stored configuration.
  lemma MergeFails(dest: Document, s: Source)
    ensures MergeSource(dest, s).Error? ==>
      MergeSource(dest, s).failure ==
      if s.kind != DockerConfigJson && s.kind != Dockercfg then WrongSourceType
      else if !s.document.Parsed? || s.document.json.Other? then InvalidSource
      else if dest == Parsed(Null) then NilMap
      else InvalidDestination
  {
    if s.document.Parsed? && !s.document.json.Other? {
      var n := Convert(s.document).value;
      assert AUTHS in n.json.fields;
    }
  }

  lemma SuppliedIsConverted(s: Source)
    requires Convert(s.document).Ok?
    ensures Convert(s.document).value.Parsed? && Convert(s.document).value.json.Object?
    ensures Auths(Convert(s.document).value.json.fields) == Supplied(s)
  {
  }

  lemma SourceAdds(dest: Document, s: Source)
    requires MergeSource(dest, s).Ok?
    ensures Credentials(MergeSource(dest, s).value) == Credentials(dest) + Supplied(s)
  {
    MergeSucceeds(dest, s);
    var n := Convert(s.document).value;
    var d := if dest.Empty? then map[] else dest.json.fields;
    SuppliedIsConverted(s);
    AuthsOfMerged(d, n.json.fields);
  }

  lemma CycleAdds(dest: Document, r: Cycle)
    requires Counts(dest, r)
    ensures Credentials(StoredAfter(dest, r)) == Credentials(dest) + Supplied(r.pull) + Supplied(r.registry)
  {
    SourceAdds(dest, r.pull);
    SourceAdds(MergeSource(dest, r.pull).value, r.registry);
  }

  // Whatever runs happen, each registry holds the credential of the latest supplier that had it,
  // or the one it had from the start.
  lemma {:induction false} LatestSupplierWins(dest: Document, cycles: seq<Cycle>, registry: string)
    ensures var held, latest := Credentials(After(dest, cycles)), Latest(Supplies(dest, cycles), registry);
      && (registry in held <==> latest.Some? || registry in Credentials(dest))
      && (registry in held ==> held[registry] == if latest.Some? then latest.value else Credentials(dest)[registry])
    decreases |cycles|
  {
    if cycles != [] {
      var next := StoredAfter(dest, cycles[0]);
      LatestSupplierWins(next, cycles[1..], registry);
      var later := Supplies(next, cycles[1..]);
      if Counts(dest, cycles[0]) {
        CycleAdds(dest, cycles[0]);
        var a, b := Supplied(cycles[0].pull), Supplied(cycles[0].registry);
        assert ([a, b] + later)[1..] == [b] + later && ([b] + later)[1..] == later;
      } else {
        assert [] + later == later;
      }
    }
  }

  // No registry is ever lost.
  lemma RegistriesLast(dest: Document, cycles: seq<Cycle>, registry: string)
    requires registry in Credentials(dest)
    ensures registry in Credentials(After(dest, cycles))
  {
    LatestSupplierWins(dest, cycles, registry);
  }

  // ---- the other keys of the configuration ----

  // The keys of a stored configuration beside the credentials.
  function Settings(d: Document): Fields {
    if d.Parsed? && d.json.Object? then d.json.fields - {"auths"} else map[]
  }

  // Those a source supplies; the older format has none.
  function SuppliedSettings(s: Source): Fields {
    match s.document
    case Parsed(Object(fields)) => if "auths" in fields then fields - {"auths"} else map[]
    case _ => map[]
  }

  function SettingsSupplies(dest: Document, cycles: seq<Cycle>): seq<Fields>
    decreases |cycles|
  {
    if cycles == [] then []
    else
      (if Counts(dest, cycles[0]) then [SuppliedSettings(cycles[0].pull), SuppliedSettings(cycles[0].registry)] else [])
      + SettingsSupplies(StoredAfter(dest, cycles[0]), cycles[1..])
  }

  lemma SourceSets(dest: Document, s: Source)
    requires MergeSource(dest, s).Ok?
    ensures Settings(MergeSource(dest, s).value) == Settings(dest) + SuppliedSettings(s)
  {
    MergeSucceeds(dest, s);
    var n := Convert(s.document).value;
    var d := if dest.Empty? then map[] else dest.json.fields;
    assert Settings(MergeSource(dest, s).value) == Merged(d, n.json.fields) - {"auths"};
    assert Settings(dest) == d - {"auths"} && SuppliedSettings(s) == n.json.fields - {"auths"};
    forall k | k != "auths" {
      OtherKeysOfMerged(d, n.json.fields, k);
    }
  }

  lemma CycleSets(dest: Document, r: Cycle)
    requires Counts(dest, r)
    ensures Settings(StoredAfter(dest, r)) == Settings(dest) + SuppliedSettings(r.pull) + SuppliedSettings(r.registry)
  {
    SourceSets(dest, r.pull);
    SourceSets(MergeSource(dest, r.pull).value, r.registry);
  }

  // The same for every other key: it holds the value of the latest supplier that had it, or its first one.
  lemma {:induction false} LatestSettingWins(dest: Document, cycles: seq<Cycle>, key: string)
    ensures var held, latest := Settings(After(dest, cycles)), Latest(SettingsSupplies(dest, cycles), key);
      && (key in held <==> latest.Some? || key in Settings(dest))
      && (key in held ==> held[key] == if latest.Some? then latest.value else Settings(dest)[key])
    decreases |cycles|
  {
    if cycles != [] {
      var next := StoredAfter(dest, cycles[0]);
      LatestSettingWins(next, cycles[1..], key);
      var later := SettingsSupplies(next, cycles[1..]);
      if Counts(dest, cycles[0]) {
        CycleSets(dest, cycles[0]);
        var a, b := SuppliedSettings(cycles[0].pull), SuppliedSettings(cycles[0].registry);
        assert ([a, b] + later)[1..] == [b] + later && ([b] + later)[1..] == later;
      } else {
        assert [] + later == later;
      }
    }
  }

  // A cycle counts exactly if it was stored, the configuration is an object or empty, and both sources are
  // docker secrets with a JSON object or null in them.
  lemma CountsIff(dest: Document, r: Cycle)
    ensures Counts(dest, r) <==>
      && r.stored && (dest.Empty? || (dest.Parsed? && dest.json.Object?))
      && (forall s :: s in {r.pull, r.registry} ==>
            (s.kind == DockerConfigJson || s.kind == Dockercfg) && s.document.Parsed? && !s.document.json.Other?)
  {
    MergeSucceeds(dest, r.pull);
    if MergeSource(dest, r.pull).Ok? {
      MergeSucceeds(MergeSource(dest, r.pull).value, r.registry);
    }
  }
}
