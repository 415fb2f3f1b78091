/** The corpus manifest of an evaluation run and its JSON form. */
module ManifestCodec {
  import opened Prelude
  import opened Anchors

  /** A decoded JSON value; dictionaries keep their insertion order. */
  datatype Json =
    | Null
    | Bool(flag: bool)
    | Number(number: int)
    | Text(text: string)
    | List(items: seq<Json>)
    | Object(fields: seq<(string, Json)>)

  /** `raw.get(key)`: null when the key is absent. */
  function Get(fields: seq<(string, Json)>, key: string): Json {
    if fields == [] then Null
    else if fields[|fields| - 1].0 == key then fields[|fields| - 1].1
    else Get(fields[..|fields| - 1], key)
  }

  predicate Truthy(value: Json) {
    match value
    case Null => false
    case Bool(flag) => flag
    case Number(number) => number != 0
    case Text(text) => text != ""
    case List(items) => items != []
    case Object(fields) => fields != []
  }

  /** `UUID(str(value))`: only the text of a string or of a number can be a UUID. */
  function UuidOf(value: Json): (u: Option<Uuid>)
    ensures u.Some? ==> u.value < UUIDS
  {
    match value
    case Text(text) => ParseUuid(text)
    case Number(number) => ParseUuid(if number < 0 then "-" + Decimal(-number) else Decimal(number))
    case _ => None
  }

  /** A number reads like its digits, whatever its sign: hyphens do not count. */
  lemma NumbersReadLikeText(n: int)
    requires n >= 0
    ensures UuidOf(Number(n)) == UuidOf(Number(-n)) == UuidOf(Text(Decimal(n)))
  {
    DashBeforeDigits(n);
    hide Decimal, ParseHex;
  }

  lemma DashBeforeDigits(n: nat)
    ensures WithoutDashes("-" + Decimal(n)) == WithoutDashes(Decimal(n))
  {
    DashAlone();
    DashesJoin("-", Decimal(n));
  }

  function UuidJson(u: Uuid): (value: Json)
    ensures value == Text(UuidText(u)) && Truthy(value)
  {
    Text(UuidText(u))
  }

  lemma UuidJsonRoundTrip(u: Uuid)
    requires u < UUIDS
    ensures UuidOf(UuidJson(u)) == Some(u)
  {
    UuidRoundTrip(u);
  }

  // ---------------------------------------------------------------- one corpus

  /** `sourceVersions` is a dictionary, in insertion order. */
  datatype CorpusVariant = CorpusVariant(versionIds: seq<Uuid>, sourceVersions: seq<(Uuid, Uuid)>)

  /** What the Python types already promise of a corpus. */
  predicate IsCorpus(c: CorpusVariant) {
    && Distinct(KeysOf(c.sourceVersions))
    && (forall i :: 0 <= i < |c.versionIds| ==> c.versionIds[i] < UUIDS)
    && (forall i :: 0 <= i < |c.sourceVersions| ==> IsPair(c.sourceVersions[i]))
  }

  predicate IsPair(pair: (Uuid, Uuid)) {
    pair.0 < UUIDS && pair.1 < UUIDS
  }

  /** Every indexed version has a source mapping, and there is at least one. */
  predicate Mapped(c: CorpusVariant) {
    c.versionIds != [] && forall v :: v in c.versionIds ==> v in KeysOf(c.sourceVersions)
  }

  /** `d[key] = value`: an existing key keeps its place. */
  function Put(pairs: seq<(Uuid, Uuid)>, pair: (Uuid, Uuid)): (r: seq<(Uuid, Uuid)>)
    ensures forall p :: p in r ==> p == pair || p in pairs
  {
    if pairs == [] then [pair]
    else if pairs[0].0 == pair.0 then [pair] + pairs[1..]
    else [pairs[0]] + Put(pairs[1..], pair)
  }

  /** The dictionary that assigning the pairs one after the other builds. */
  function Assign(pairs: seq<(Uuid, Uuid)>): (d: seq<(Uuid, Uuid)>)
    ensures forall p :: p in d ==> p in pairs
  {
    if pairs == [] then [] else Put(Assign(pairs[..|pairs| - 1]), pairs[|pairs| - 1])
  }

  lemma KeysJoin(a: seq<(Uuid, Uuid)>, b: seq<(Uuid, Uuid)>)
    ensures KeysOf(a + b) == KeysOf(a) + KeysOf(b)
  {
  }

  lemma {:induction false} PutNew(pairs: seq<(Uuid, Uuid)>, pair: (Uuid, Uuid))
    requires pair.0 !in KeysOf(pairs)
    ensures Put(pairs, pair) == pairs + [pair]
  {
    if pairs != [] {
      KeysJoin([pairs[0]], pairs[1..]);
      assert pairs == [pairs[0]] + pairs[1..];
      assert KeysOf([pairs[0]]) == [pairs[0].0];
      hide KeysOf;
      PutNew(pairs[1..], pair);
    }
  }

  /** Assigning adds at most the key itself. */
  lemma PutKeys(pairs: seq<(Uuid, Uuid)>, pair: (Uuid, Uuid), key: Uuid)
    requires key in KeysOf(Put(pairs, pair))
    ensures key == pair.0 || key in KeysOf(pairs)
  {
    var i :| 0 <= i < |Put(pairs, pair)| && KeysOf(Put(pairs, pair))[i] == key;
    var p := Put(pairs, pair)[i];
    assert p in Put(pairs, pair);
    if p in pairs {
      var j :| 0 <= j < |pairs| && pairs[j] == p;
      assert KeysOf(pairs)[j] == key;
    }
  }

  lemma DistinctHead(head: Uuid, rest: seq<Uuid>)
    ensures Distinct([head] + rest) <==> head !in rest && Distinct(rest)
  {
    var s := [head] + rest;
    assert s[0] == head && s[1..] == rest;
    assert Distinct(s) ==> head !in rest && Distinct(rest) by {
      assert forall i :: 0 <= i < |rest| ==> s[i + 1] == rest[i];
    }
  }

  lemma {:induction false} PutKeepsDistinct(pairs: seq<(Uuid, Uuid)>, pair: (Uuid, Uuid))
    requires Distinct(KeysOf(pairs))
    ensures Distinct(KeysOf(Put(pairs, pair)))
  {
    if pairs == [] {
      assert KeysOf([pair]) == [pair.0];
    } else {
      var head, rest := pairs[0], pairs[1..];
      KeysJoin([head], rest);
      assert pairs == [head] + rest;
      assert KeysOf([head]) == [head.0] && KeysOf([pair]) == [pair.0];
      DistinctHead(head.0, KeysOf(rest));
      PutKeepsDistinct(rest, pair);
      KeysJoin([pair], rest);
      KeysJoin([head], Put(rest, pair));
      DistinctHead(head.0, KeysOf(Put(rest, pair)));
      if head.0 in KeysOf(Put(rest, pair)) {
        PutKeys(rest, pair, head.0);
      }
    }
  }

  lemma {:induction false} AssignedKeysAreDistinct(pairs: seq<(Uuid, Uuid)>)
    ensures Distinct(KeysOf(Assign(pairs)))
  {
    if pairs != [] {
      AssignedKeysAreDistinct(pairs[..|pairs| - 1]);
      PutKeepsDistinct(Assign(pairs[..|pairs| - 1]), pairs[|pairs| - 1]);
    }
  }

  lemma DistinctLast(front: seq<Uuid>, last: Uuid)
    requires Distinct(front + [last])
    ensures Distinct(front) && last !in front
  {
    var s := front + [last];
    assert s[|front|] == last && forall i :: 0 <= i < |front| ==> s[i] == front[i];
  }

  lemma {:induction false} AssignDistinct(pairs: seq<(Uuid, Uuid)>)
    requires Distinct(KeysOf(pairs))
    ensures Assign(pairs) == pairs
  {
    if pairs != [] {
      var front, last := pairs[..|pairs| - 1], pairs[|pairs| - 1];
      KeysJoin(front, [last]);
      assert pairs == front + [last] && KeysOf([last]) == [last.0];
      DistinctLast(KeysOf(front), last.0);
      AssignDistinct(front);
      PutNew(front, last);
    }
  }

  lemma {:induction false} PutHolds(pairs: seq<(Uuid, Uuid)>, pair: (Uuid, Uuid))
    ensures pair in Put(pairs, pair)
    ensures forall p :: p in pairs && p.0 != pair.0 ==> p in Put(pairs, pair)
  {
    if pairs != [] {
      assert pairs == [pairs[0]] + pairs[1..];
      PutHolds(pairs[1..], pair);
    }
  }

  /** The last assignment to a key is the one that stays. */
  lemma {:induction false} LastAssignmentStays(pairs: seq<(Uuid, Uuid)>, i: nat)
    requires i < |pairs| && forall j :: i < j < |pairs| ==> pairs[j].0 != pairs[i].0
    ensures pairs[i] in Assign(pairs)
  {
    var n := |pairs| - 1;
    PutHolds(Assign(pairs[..n]), pairs[n]);
    if i < n {
      LastAssignmentStays(pairs[..n], i);
    }
  }

  // ---------------------------------------------------------------- one corpus as JSON

  function UuidList(ids: seq<Uuid>): (items: seq<Json>)
    ensures |items| == |ids| && forall i :: 0 <= i < |ids| ==> items[i] == UuidJson(ids[i])
  {
    seq(|ids|, i requires 0 <= i < |ids| => UuidJson(ids[i]))
  }

  function PairField(pair: (Uuid, Uuid)): (string, Json) {
    (UuidText(pair.0), UuidJson(pair.1))
  }

  function PairFields(pairs: seq<(Uuid, Uuid)>): (fields: seq<(string, Json)>)
    ensures |fields| == |pairs| && forall i :: 0 <= i < |pairs| ==> fields[i] == PairField(pairs[i])
  {
    seq(|pairs|, i requires 0 <= i < |pairs| => PairField(pairs[i]))
  }

  function CorpusToJson(c: CorpusVariant): Json {
    Object([("version_ids", List(UuidList(c.versionIds))), ("source_versions", Object(PairFields(c.sourceVersions)))])
  }

  function ReadUuids(items: seq<Json>): (ids: Option<seq<Uuid>>)
    ensures ids.Some? <==> forall i :: 0 <= i < |items| ==> UuidOf(items[i]).Some?
    ensures ids.Some? ==> |ids.value| == |items| && forall i :: 0 <= i < |items| ==> UuidOf(items[i]) == Some(ids.value[i])
  {
    if forall i :: 0 <= i < |items| ==> UuidOf(items[i]).Some? then
      Some(seq(|items|, i requires 0 <= i < |items| => UuidOf(items[i]).value))
    else None
  }

  function ReadPair(field: (string, Json)): (pair: Option<(Uuid, Uuid)>)
    ensures pair.Some? ==> IsPair(pair.value)
  {
    match (ParseUuid(field.0), UuidOf(field.1))
    case (Some(indexed), Some(source)) => Some((indexed, source))
    case _ => None
  }

  function ReadPairs(fields: seq<(string, Json)>): (pairs: Option<seq<(Uuid, Uuid)>>)
    ensures pairs.Some? <==> forall i :: 0 <= i < |fields| ==> ReadPair(fields[i]).Some?
    ensures pairs.Some? ==> |pairs.value| == |fields| && forall i :: 0 <= i < |fields| ==>
        ReadPair(fields[i]) == Some(pairs.value[i])
  {
    if forall i :: 0 <= i < |fields| ==> ReadPair(fields[i]).Some? then
      Some(seq(|fields|, i requires 0 <= i < |fields| => ReadPair(fields[i]).value))
    else None
  }

  function CorpusFromJson(raw: Json): Option<CorpusVariant> {
    if !raw.Object? then None
    else
      var versions, mapping := Get(raw.fields, "version_ids"), Get(raw.fields, "source_versions");
      if !versions.List? || !mapping.Object? then None
      else
        match (ReadUuids(versions.items), ReadPairs(mapping.fields))
        case (Some(ids), Some(pairs)) =>
          var c := CorpusVariant(ids, Assign(pairs));
          if Mapped(c) then Some(c) else None
        case _ => None
  }

  lemma UuidsRoundTrip(ids: seq<Uuid>)
    requires forall i :: 0 <= i < |ids| ==> ids[i] < UUIDS
    ensures ReadUuids(UuidList(ids)) == Some(ids)
  {
    hide UuidOf, UuidJson;
    var items := UuidList(ids);
    forall i | 0 <= i < |ids| ensures UuidOf(items[i]) == Some(ids[i]) {
      UuidJsonRoundTrip(ids[i]);
    }
    assert ReadUuids(items).value == ids;
  }

  lemma PairsRoundTrip(pairs: seq<(Uuid, Uuid)>)
    requires forall i :: 0 <= i < |pairs| ==> IsPair(pairs[i])
    ensures ReadPairs(PairFields(pairs)) == Some(pairs)
  {
    hide UuidOf, UuidJson, UuidText, ParseUuid;
    var fields := PairFields(pairs);
    forall i | 0 <= i < |pairs| ensures ReadPair(fields[i]) == Some(pairs[i]) {
      UuidRoundTrip(pairs[i].0);
      UuidJsonRoundTrip(pairs[i].1);
    }
    assert ReadPairs(fields).value == pairs;
  }

  lemma CorpusFields(c: CorpusVariant)
    ensures var fields := CorpusToJson(c).fields;
      && Get(fields, "version_ids") == List(UuidList(c.versionIds))
      && Get(fields, "source_versions") == Object(PairFields(c.sourceVersions))
  {
    hide Get;
    GetAt(CorpusToJson(c).fields, 0);
    GetAt(CorpusToJson(c).fields, 1);
  }

  lemma CorpusRoundTrip(c: CorpusVariant)
    requires IsCorpus(c)
    ensures CorpusFromJson(CorpusToJson(c)) == if Mapped(c) then Some(c) else None
  {
    UuidsRoundTrip(c.versionIds);
    PairsRoundTrip(c.sourceVersions);
    AssignDistinct(c.sourceVersions);
    CorpusFields(c);
    hide Get, Assign, Mapped, ReadUuids, ReadPairs, UuidList, PairFields;
  }

  lemma AcceptedCorpus(raw: Json)
    requires CorpusFromJson(raw).Some?
    ensures IsCorpus(CorpusFromJson(raw).value) && Mapped(CorpusFromJson(raw).value)
  {
    var pairs := ReadPairs(Get(raw.fields, "source_versions").fields).value;
    AssignedKeysAreDistinct(pairs);
    hide Get, Assign, Mapped, Distinct;
    forall p | p in Assign(pairs) ensures IsPair(p) {
      assert p in pairs;
    }
  }

  /** An accepted corpus has the identifiers listed under `version_ids` and, under `source_versions`, the last
      source given for each indexed version. */
  lemma AcceptedCorpusFields(raw: Json)
    requires CorpusFromJson(raw).Some? && raw.Object?
    ensures var c := CorpusFromJson(raw).value;
            var versions, mapping := Get(raw.fields, "version_ids"), Get(raw.fields, "source_versions");
            && versions.List? && |versions.items| == |c.versionIds|
            && (forall i :: 0 <= i < |c.versionIds| ==> UuidOf(versions.items[i]) == Some(c.versionIds[i]))
            && mapping.Object? && ReadPairs(mapping.fields).Some?
            && (forall p :: p in c.sourceVersions <==> IsLast(p, ReadPairs(mapping.fields).value))
  {
    var c, pairs := CorpusFromJson(raw).value, ReadPairs(Get(raw.fields, "source_versions").fields).value;
    AssignedKeysAreDistinct(pairs);
    hide Get, Mapped, UuidOf, ReadPairs, Distinct;
    forall p ensures p in Assign(pairs) <==> IsLast(p, pairs) {
      AssignedIffLast(p, pairs);
    }
  }

  ghost predicate IsLast(p: (Uuid, Uuid), pairs: seq<(Uuid, Uuid)>) {
    exists i :: 0 <= i < |pairs| && pairs[i] == p && forall j :: i < j < |pairs| ==> pairs[j].0 != p.0
  }

  lemma {:induction false} SomeLast(pairs: seq<(Uuid, Uuid)>, key: Uuid) returns (i: nat)
    requires exists j :: 0 <= j < |pairs| && pairs[j].0 == key
    ensures i < |pairs| && pairs[i].0 == key && forall j :: i < j < |pairs| ==> pairs[j].0 != key
  {
    i := |pairs| - 1;
    if pairs[i].0 != key {
      var j :| 0 <= j < |pairs| && pairs[j].0 == key;
      assert pairs[..|pairs| - 1][j].0 == key;
      i := SomeLast(pairs[..|pairs| - 1], key);
    }
  }

  lemma AssignedIffLast(p: (Uuid, Uuid), pairs: seq<(Uuid, Uuid)>)
    ensures p in Assign(pairs) <==> IsLast(p, pairs)
  {
    AssignedKeysAreDistinct(pairs);
    hide Assign;
    if IsLast(p, pairs) {
      var i :| 0 <= i < |pairs| && pairs[i] == p && forall j :: i < j < |pairs| ==> pairs[j].0 != p.0;
      LastAssignmentStays(pairs, i);
    }
    if p in Assign(pairs) {
      assert p in pairs;
      var j :| 0 <= j < |pairs| && pairs[j] == p;
      var i := SomeLast(pairs, p.0);
      LastAssignmentStays(pairs, i);
      SameKeySamePair(Assign(pairs), p, pairs[i]);
    }
  }

  lemma SameKeySamePair(pairs: seq<(Uuid, Uuid)>, p: (Uuid, Uuid), q: (Uuid, Uuid))
    requires Distinct(KeysOf(pairs)) && p in pairs && q in pairs && p.0 == q.0
    ensures p == q
  {
    var i :| 0 <= i < |pairs| && pairs[i] == p;
    var j :| 0 <= j < |pairs| && pairs[j] == q;
    assert KeysOf(pairs)[i] == KeysOf(pairs)[j];
  }

  // ---------------------------------------------------------------- the manifest

  datatype Manifest = Manifest(
    suiteFingerprint: string, baseline: CorpusVariant, candidate: CorpusVariant,
    baselineQuery: Uuid, candidateQuery: Uuid, baselineIngestion: Option<Uuid>, candidateIngestion: Option<Uuid>)

  predicate IsProfile(id: Option<Uuid>) {
    id.Some? ==> id.value < UUIDS
  }

  /** What the Python types already promise of a manifest. */
  predicate IsManifest(m: Manifest) {
    && IsCorpus(m.baseline) && IsCorpus(m.candidate)
    && m.baselineQuery < UUIDS && m.candidateQuery < UUIDS
    && IsProfile(m.baselineIngestion) && IsProfile(m.candidateIngestion)
  }

  const FINGERPRINT_LENGTH := 64

  predicate WellFormed(m: Manifest) {
    |m.suiteFingerprint| == FINGERPRINT_LENGTH && Mapped(m.baseline) && Mapped(m.candidate)
  }

  function ProfileToJson(id: Option<Uuid>): Json {
    match id
    case None => Null
    case Some(u) => UuidJson(u)
  }

  function ToJson(m: Manifest): seq<(string, Json)> {
    [("suite_fingerprint", Text(m.suiteFingerprint)),
     ("baseline", CorpusToJson(m.baseline)),
     ("candidate", CorpusToJson(m.candidate)),
     ("baseline_query_profile_id", UuidJson(m.baselineQuery)),
     ("candidate_query_profile_id", UuidJson(m.candidateQuery)),
     ("baseline_ingestion_profile_id", ProfileToJson(m.baselineIngestion)),
     ("candidate_ingestion_profile_id", ProfileToJson(m.candidateIngestion))]
  }

  /** No profile for a falsy value; a truthy one must be a UUID. */
  function ProfileFromJson(value: Json): (id: Option<Option<Uuid>>)
    ensures value == Null || value == Text("") ==> id == Some(None)
    ensures value.Text? && value.text != "" ==> id == if ParseUuid(value.text).Some? then Some(ParseUuid(value.text)) else None
  {
    if !Truthy(value) then Some(None)
    else
      match UuidOf(value)
      case None => None
      case Some(u) => Some(Some(u))
  }

  function FromJson(raw: seq<(string, Json)>): Option<Manifest> {
    var fingerprint := Get(raw, "suite_fingerprint");
    if !fingerprint.Text? || |fingerprint.text| != FINGERPRINT_LENGTH then None
    else
      match (CorpusFromJson(Get(raw, "baseline")), CorpusFromJson(Get(raw, "candidate")),
             UuidOf(Get(raw, "baseline_query_profile_id")), UuidOf(Get(raw, "candidate_query_profile_id")),
             ProfileFromJson(Get(raw, "baseline_ingestion_profile_id")), ProfileFromJson(Get(raw,
                 "candidate_ingestion_profile_id")))
      case (Some(baseline), Some(candidate), Some(bq), Some(cq), Some(bi), Some(ci)) =>
        Some(Manifest(fingerprint.text, baseline, candidate, bq, cq, bi, ci))
      case _ => None
  }

  /** What the run stores: the manifest and the tenant it evaluates. */
  function Stored(m: Manifest, tenant: Uuid): seq<(string, Json)> {
    ToJson(m) + [("evaluation_tenant_id", UuidJson(tenant))]
  }

  lemma ProfileRoundTrip(id: Option<Uuid>)
    requires IsProfile(id)
    ensures ProfileFromJson(ProfileToJson(id)) == Some(id)
  {
    hide UuidOf, UuidText;
    if id.Some? {
      UuidJsonRoundTrip(id.value);
    }
  }

  lemma {:induction false} GetAt(fields: seq<(string, Json)>, i: nat)
    requires i < |fields| && forall j :: i < j < |fields| ==> fields[j].0 != fields[i].0
    ensures Get(fields, fields[i].0) == fields[i].1
  {
    if i < |fields| - 1 {
      GetAt(fields[..|fields| - 1], i);
    }
  }

  lemma StoredFields(m: Manifest, tenant: Uuid)
    ensures var raw := Stored(m, tenant);
      && Get(raw, "suite_fingerprint") == Text(m.suiteFingerprint)
      && Get(raw, "baseline") == CorpusToJson(m.baseline)
      && Get(raw, "candidate") == CorpusToJson(m.candidate)
      && Get(raw, "baseline_query_profile_id") == UuidJson(m.baselineQuery)
      && Get(raw, "candidate_query_profile_id") == UuidJson(m.candidateQuery)
      && Get(raw, "baseline_ingestion_profile_id") == ProfileToJson(m.baselineIngestion)
      && Get(raw, "candidate_ingestion_profile_id") == ProfileToJson(m.candidateIngestion)
  {
    hide Get, UuidJson, CorpusToJson, ProfileToJson;
    var raw := Stored(m, tenant);
    GetAt(raw, 0);
    GetAt(raw, 1);
    GetAt(raw, 2);
    GetAt(raw, 3);
    GetAt(raw, 4);
    GetAt(raw, 5);
    GetAt(raw, 6);
  }

  /** Reading back what a run stored gives the manifest exactly when it is well formed, and fails otherwise. */
  lemma StoredRoundTrip(m: Manifest, tenant: Uuid)
    requires IsManifest(m)
    ensures FromJson(Stored(m, tenant)) == if WellFormed(m) then Some(m) else None
  {
    StoredFields(m, tenant);
    CorpusRoundTrip(m.baseline);
    CorpusRoundTrip(m.candidate);
    UuidJsonRoundTrip(m.baselineQuery);
    UuidJsonRoundTrip(m.candidateQuery);
    ProfileRoundTrip(m.baselineIngestion);
    ProfileRoundTrip(m.candidateIngestion);
    hide Get, UuidOf, UuidJson, CorpusToJson, CorpusFromJson, ProfileFromJson, ProfileToJson, Mapped, Stored;
  }

  /** A missing key reads as null. */
  lemma {:induction false} GetAbsent(fields: seq<(string, Json)>, key: string)
    requires forall i :: 0 <= i < |fields| ==> fields[i].0 != key
    ensures Get(fields, key) == Null
  {
    if fields != [] {
      GetAbsent(fields[..|fields| - 1], key);
    }
  }

  ghost predicate ReadsProfile(value: Json, id: Option<Uuid>) {
    if id.Some? then Truthy(value) && UuidOf(value) == id else !Truthy(value)
  }

  /** An accepted manifest holds what the raw input says under each key, and nothing else is accepted. */
  lemma AcceptedFields(raw: seq<(string, Json)>, m: Manifest)
    ensures FromJson(raw) == Some(m) <==>
              && Get(raw, "suite_fingerprint") == Text(m.suiteFingerprint) && |m.suiteFingerprint| == 64
              && CorpusFromJson(Get(raw, "baseline")) == Some(m.baseline)
              && CorpusFromJson(Get(raw, "candidate")) == Some(m.candidate)
              && UuidOf(Get(raw, "baseline_query_profile_id")) == Some(m.baselineQuery)
              && UuidOf(Get(raw, "candidate_query_profile_id")) == Some(m.candidateQuery)
              && ReadsProfile(Get(raw, "baseline_ingestion_profile_id"), m.baselineIngestion)
              && ReadsProfile(Get(raw, "candidate_ingestion_profile_id"), m.candidateIngestion)
  {
    hide Get, CorpusFromJson, UuidOf, Truthy;
  }

  /** Whatever raw input the launch accepts is a well-formed manifest, and the worker reads back the very
      manifest the launch validated. */
  lemma AcceptedManifest(raw: seq<(string, Json)>, tenant: Uuid)
    requires FromJson(raw).Some?
    ensures WellFormed(FromJson(raw).value) && IsManifest(FromJson(raw).value)
    ensures FromJson(Stored(FromJson(raw).value, tenant)) == FromJson(raw)
  {
    AcceptedCorpus(Get(raw, "baseline"));
    AcceptedCorpus(Get(raw, "candidate"));
    hide Get, CorpusFromJson, UuidOf, Truthy, IsCorpus, Mapped;
    var m := FromJson(raw).value;
    assert IsManifest(m);
    StoredRoundTrip(m, tenant);
  }
}
