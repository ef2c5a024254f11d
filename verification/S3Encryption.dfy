/**
 Bucket-encryption evidence: the normaliser of the provider's response shape and the validator of
 the canonical shape. A refusal (ValueError, or TypeError on an unhashable member) is `None`.
 */
module S3Encryption {
  import opened Wrappers
  import opened Ordering
  import opened Identities
  import opened JsonValues

  const ALGORITHMS: set<string> := {"AES256", "aws:backup", "aws:fsx", "aws:kms", "aws:kms:dsse"}
  const KMS_ALGORITHMS: set<string> := {"aws:kms", "aws:kms:dsse"}
  const BLOCKED_TYPES: set<string> := {"NONE", "SSE-C"}

  const RULE_FIELDS: set<string> := {
    "sse_algorithm", "kms_key_reference", "kms_reference_explicit", "key_management",
    "bucket_key_enabled", "blocked_encryption_types"
  }

  function Management(algorithm: Json, reference: Json): Json {
    if algorithm.Null? then Null
    else if algorithm == Text("AES256") then Text("S3_MANAGED")
    else if IsOneOf(algorithm, KMS_ALGORITHMS) then
      Text(if reference.Null? then "IMPLICIT_AWS_MANAGED_KMS" else "EXPLICIT_KMS_REFERENCE")
    else Text("SERVICE_SPECIFIC")
  }

  function CanonicalRule(algorithm: Json, reference: Json, bucketKey: Json, blocked: seq<Json>): Json {
    Object(map[
      "sse_algorithm" := algorithm,
      "kms_key_reference" := reference,
      "kms_reference_explicit" := Bool(!reference.Null?),
      "key_management" := Management(algorithm, reference),
      "bucket_key_enabled" := bucketKey,
      "blocked_encryption_types" := List(blocked)])
  }

  /** What both sides ask of an algorithm, its key reference and its bucket key. */
  predicate Coherent(algorithm: Json, reference: Json, bucketKey: Json, blocked: seq<Json>) {
    && (algorithm.Null? || IsOneOf(algorithm, ALGORITHMS))
    && (reference.Null? || (SafeText(reference) && IsOneOf(algorithm, KMS_ALGORITHMS)))
    && (bucketKey.Null? || bucketKey.Bool?)
    && (bucketKey == Bool(true) ==> algorithm == Text("aws:kms"))
    && |blocked| <= 1 && (forall b :: b in blocked ==> IsOneOf(b, BLOCKED_TYPES))
    && (algorithm.Null? ==> blocked != [])
  }

  // ----- The normaliser -----

  /** A rule as the provider returns it, read field by field. */
  predicate LegacyRule(rule: Json) {
    && rule.Object?
    && var defaults := Get(rule, "ApplyServerSideEncryptionByDefault");
    && var blocked := Get(rule, "BlockedEncryptionTypes");
    && (defaults.Null? || (defaults.Object? && IsOneOf(Get(defaults, "SSEAlgorithm"), ALGORITHMS)))
    && (blocked.Null? || OneBlockedType(blocked))
    && Coherent(LegacyAlgorithm(rule), LegacyReference(rule), Get(rule, "BucketKeyEnabled"), LegacyBlocked(rule))
  }

  predicate OneBlockedType(blocked: Json) {
    && blocked.Object? && blocked.fields.Keys == {"EncryptionType"}
    && blocked.fields["EncryptionType"].List? && |blocked.fields["EncryptionType"].items| == 1
  }

  function LegacyAlgorithm(rule: Json): Json {
    Get(Get(rule, "ApplyServerSideEncryptionByDefault"), "SSEAlgorithm")
  }

  function LegacyReference(rule: Json): Json {
    Get(Get(rule, "ApplyServerSideEncryptionByDefault"), "KMSMasterKeyID")
  }

  function LegacyBlocked(rule: Json): seq<Json> {
    var types := Get(Get(rule, "BlockedEncryptionTypes"), "EncryptionType");
    if types.List? then types.items else []
  }

  function NormalRule(rule: Json): Json {
    CanonicalRule(LegacyAlgorithm(rule), LegacyReference(rule), Get(rule, "BucketKeyEnabled"), LegacyBlocked(rule))
  }

  function NormalRules(rules: seq<Json>): seq<Json> {
    Map(NormalRule, rules)
  }

  /** Rules sort by their canonical JSON text. */
  function ByText(json: Json -> string): (Json, Json) -> bool {
    (a, b) => TextLe(json(a), json(b))
  }

  ghost predicate AllLegacy(rules: seq<Json>) {
    forall rule :: rule in rules ==> LegacyRule(rule)
  }

  ghost predicate Normalizable(value: Json) {
    Get(value, "Rules").List? && Get(value, "Rules").items != [] && AllLegacy(Get(value, "Rules").items)
  }

  /** What the normaliser is for: every rule in canonical form, in canonical order. */
  ghost function Normalized(json: Json -> string, value: Json): Option<Json> {
    if Normalizable(value)
    then Some(Object(map["rules" := List(Sort(NormalRules(Get(value, "Rules").items), ByText(json)))]))
    else None
  }

  method NormalizeRule(rule: Json) returns (r: Option<Json>)
    ensures r == if LegacyRule(rule) then Some(NormalRule(rule)) else None
  {
    if !rule.Object? {
      return None;
    }
    var defaults := Get(rule, "ApplyServerSideEncryptionByDefault");
    var algorithm, reference := Null, Null;
    if defaults != Null {
      if !defaults.Object? {
        return None;
      }
      algorithm, reference := Get(defaults, "SSEAlgorithm"), Get(defaults, "KMSMasterKeyID");
      if !IsOneOf(algorithm, ALGORITHMS) || (reference != Null && !SafeText(reference)) {
        return None;
      }
    }
    if reference != Null && !IsOneOf(algorithm, KMS_ALGORITHMS) {
      return None;
    }
    var blocked := Get(rule, "BlockedEncryptionTypes");
    var blockedTypes: seq<Json> := [];
    if blocked != Null {
      if !OneBlockedType(blocked) || !IsOneOf(blocked.fields["EncryptionType"].items[0], BLOCKED_TYPES) {
        return None;
      }
      blockedTypes := blocked.fields["EncryptionType"].items;
    }
    if algorithm == Null && blockedTypes == [] {
      return None;
    }
    var bucketKey := Get(rule, "BucketKeyEnabled");
    if (bucketKey != Null && !bucketKey.Bool?) || (bucketKey == Bool(true) && algorithm != Text("aws:kms")) {
      return None;
    }
    return Some(CanonicalRule(algorithm, reference, bucketKey, blockedTypes));
  }

  method NormalizeRules(rules: seq<Json>) returns (r: Option<seq<Json>>)
    ensures r == if AllLegacy(rules) then Some(NormalRules(rules)) else None
  {
    var normalized: seq<Json> := [];
    for i := 0 to |rules|
      invariant AllLegacy(rules[..i]) && normalized == NormalRules(rules[..i])
    {
      var next := NormalizeRule(rules[i]);
      NextLegacy(rules, i);
      if next == None {
        return None;
      }
      normalized := normalized + [next.value];
    }
    assert rules[..|rules|] == rules;
    return Some(normalized);
  }

  lemma NextLegacy(rules: seq<Json>, i: nat)
    requires i < |rules| && AllLegacy(rules[..i])
    ensures LegacyRule(rules[i]) <==> AllLegacy(rules[..i + 1])
    ensures AllLegacy(rules) ==> LegacyRule(rules[i])
    ensures NormalRules(rules[..i + 1]) == NormalRules(rules[..i]) + [NormalRule(rules[i])]
  {
    assert rules[..i + 1] == rules[..i] + [rules[i]] && rules[i] in rules;
  }

  method Normalize(json: Json -> string, value: Json) returns (r: Option<Json>)
    ensures r == Normalized(json, value)
  {
    var rules := Get(value, "Rules");
    if !rules.List? || rules.items == [] {
      return None;
    }
    var normalized := NormalizeRules(rules.items);
    if normalized == None {
      return None;
    }
    return Some(Object(map["rules" := List(Sort(normalized.value, ByText(json)))]));
  }

  // ----- The validator -----

  predicate ValidRule(rule: Json) {
    && rule.Object? && rule.fields.Keys == RULE_FIELDS
    && rule.fields["blocked_encryption_types"].List?
    && Coherent(rule.fields["sse_algorithm"], rule.fields["kms_key_reference"],
                rule.fields["bucket_key_enabled"], rule.fields["blocked_encryption_types"].items)
    && rule.fields["kms_reference_explicit"] == Bool(!rule.fields["kms_key_reference"].Null?)
    && rule.fields["key_management"] == Management(rule.fields["sse_algorithm"], rule.fields["kms_key_reference"])
  }

  /** The accepted values: canonical rules, at least one, in canonical order. */
  predicate Canonical(json: Json -> string, value: Json) {
    && value.Object? && value.fields.Keys == {"rules"}
    && value.fields["rules"].List? && value.fields["rules"].items != []
    && (forall rule :: rule in value.fields["rules"].items ==> ValidRule(rule))
    && value.fields["rules"].items == Sort(value.fields["rules"].items, ByText(json))
  }

  method CheckRule(rule: Json) returns (ok: bool)
    ensures ok == ValidRule(rule)
  {
    if !rule.Object? || rule.fields.Keys != RULE_FIELDS {
      return false;
    }
    var algorithm, reference := rule.fields["sse_algorithm"], rule.fields["kms_key_reference"];
    var blocked := rule.fields["blocked_encryption_types"];
    if || (algorithm != Null && !IsOneOf(algorithm, ALGORITHMS))
       || (reference != Null && !SafeText(reference))
       || !blocked.List?
       || (exists b :: b in blocked.items && !IsOneOf(b, BLOCKED_TYPES))
       || |blocked.items| > 1
       || (algorithm == Null && blocked.items == [])
    {
      return false;
    }
    if reference != Null && !IsOneOf(algorithm, KMS_ALGORITHMS) {
      return false;
    }
    var bucketKey := rule.fields["bucket_key_enabled"];
    if || rule.fields["kms_reference_explicit"] != Bool(reference != Null)
       || rule.fields["key_management"] != Management(algorithm, reference)
       || (bucketKey != Null && !bucketKey.Bool?)
       || (bucketKey == Bool(true) && algorithm != Text("aws:kms"))
    {
      return false;
    }
    return true;
  }

  method Validate(json: Json -> string, value: Json) returns (r: Option<Json>)
    ensures r == if Canonical(json, value) then Some(value) else None
  {
    if !value.Object? || value.fields.Keys != {"rules"} {
      return None;
    }
    var rules := value.fields["rules"];
    if !rules.List? || rules.items == [] {
      return None;
    }
    var normalized: seq<Json> := [];
    for i := 0 to |rules.items|
      invariant forall k :: 0 <= k < i ==> ValidRule(rules.items[k])
      invariant normalized == rules.items[..i]
    {
      var ok := CheckRule(rules.items[i]);
      if !ok {
        assert rules.items[i] in rules.items;
        return None;
      }
      normalized := normalized + [rules.items[i]];
    }
    if rules.items != Sort(rules.items, ByText(json)) {
      return None;
    }
    assert rules.items[..|rules.items|] == rules.items;
    assert value.fields == map["rules" := List(normalized)];
    return Some(Object(map["rules" := List(normalized)]));
  }

  // ----- Agreement -----

  lemma ByTextOrders(json: Json -> string)
    ensures TotalPreorder(ByText(json))
    ensures Injective(json) ==> Antisymmetric(ByText(json))
  {
    TextOrder();
    var le := ByText(json);
    forall a, b, c | le(a, b) && le(b, c) ensures le(a, c) {
      assert TextLe(json(a), json(b)) && TextLe(json(b), json(c));
    }
    forall a, b ensures le(a, b) || le(b, a) {
      assert TextLe(json(a), json(b)) || TextLe(json(b), json(a));
    }
  }

  lemma NormalRuleValid(rule: Json)
    requires LegacyRule(rule)
    ensures ValidRule(NormalRule(rule))
  {
    assert NormalRule(rule).fields.Keys == RULE_FIELDS;
  }

  /** Everything the normaliser puts out, the validator accepts unchanged. */
  lemma NormalizedIsCanonical(json: Json -> string, value: Json)
    requires Normalized(json, value).Some?
    ensures Canonical(json, Normalized(json, value).value)
  {
    var rules := NormalRules(Get(value, "Rules").items);
    var sorted := Sort(rules, ByText(json));
    ByTextOrders(json);
    SortSorts(rules, ByText(json));
    SortIdempotent(sorted, ByText(json));
    SortMembers(rules, ByText(json));
    forall rule | rule in sorted ensures ValidRule(rule) {
      var i :| 0 <= i < |rules| && rules[i] == rule;
      NormalRuleValid(Get(value, "Rules").items[i]);
    }
  }

  /** The order in which the provider lists its rules makes no difference. */
  lemma RuleOrderIrrelevant(json: Json -> string, p: seq<Json>, q: seq<Json>)
    requires Injective(json) && multiset(p) == multiset(q)
    ensures Normalized(json, Object(map["Rules" := List(p)])) == Normalized(json, Object(map["Rules" := List(q)]))
  {
    assert forall rule :: rule in p <==> rule in multiset(p);
    assert forall rule :: rule in q <==> rule in multiset(q);
    assert |p| == |multiset(p)| == |multiset(q)| == |q|;
    var vp, vq := Object(map["Rules" := List(p)]), Object(map["Rules" := List(q)]);
    assert Get(vp, "Rules") == List(p) && Get(vq, "Rules") == List(q);
    assert Normalizable(vp) <==> Normalizable(vq);
    MapPermutes(NormalRule, p, q);
    ByTextOrders(json);
    SortsAgree(NormalRules(p), NormalRules(q), ByText(json));
  }

  /** A provider rule that normalises to the given canonical rule. */
  function Denormal(rule: Json): Json
    requires ValidRule(rule)
  {
    var algorithm, reference := rule.fields["sse_algorithm"], rule.fields["kms_key_reference"];
    var blocked := rule.fields["blocked_encryption_types"].items;
    Object(map[
      "ApplyServerSideEncryptionByDefault" :=
        if algorithm.Null? then Null
        else Object(map["SSEAlgorithm" := algorithm, "KMSMasterKeyID" := reference]),
      "BlockedEncryptionTypes" :=
        if blocked == [] then Null else Object(map["EncryptionType" := List(blocked)]),
      "BucketKeyEnabled" := rule.fields["bucket_key_enabled"]])
  }

  lemma DenormalInverts(rule: Json)
    requires ValidRule(rule)
    ensures LegacyRule(Denormal(rule)) && NormalRule(Denormal(rule)) == rule
  {
    var back := NormalRule(Denormal(rule));
    assert back.fields.Keys == RULE_FIELDS;
    assert back.fields == rule.fields;
  }

  function Denormals(rules: seq<Json>): (r: seq<Json>)
    requires forall rule :: rule in rules ==> ValidRule(rule)
    ensures |r| == |rules| && forall i :: 0 <= i < |r| ==> r[i] == Denormal(rules[i])
  {
    seq(|rules|, i requires 0 <= i < |rules| => Denormal(rules[i]))
  }

  lemma DenormalsInvert(rules: seq<Json>)
    requires forall rule :: rule in rules ==> ValidRule(rule)
    ensures NormalRules(Denormals(rules)) == rules
    ensures forall rule :: rule in Denormals(rules) ==> LegacyRule(rule)
  {
    var back := Denormals(rules);
    forall i | 0 <= i < |rules| ensures LegacyRule(back[i]) && NormalRule(back[i]) == rules[i] {
      DenormalInverts(rules[i]);
    }
  }

  lemma Legacy(json: Json -> string, value: Json) returns (legacy: Json)
    requires Canonical(json, value)
    ensures Normalized(json, legacy) == Some(value)
  {
    var rules := value.fields["rules"].items;
    legacy := Object(map["Rules" := List(Denormals(rules))]);
    assert Get(legacy, "Rules") == List(Denormals(rules));
    DenormalsInvert(rules);
    assert value.fields == map["rules" := List(rules)];
  }

  /** The validator accepts exactly what the normaliser can put out. */
  lemma CanonicalIsImage(json: Json -> string, value: Json)
    ensures Canonical(json, value) <==> exists legacy :: Normalized(json, legacy) == Some(value)
  {
    if Canonical(json, value) {
      var legacy := Legacy(json, value);
    }
    forall legacy | Normalized(json, legacy) == Some(value) ensures Canonical(json, value) {
      NormalizedIsCanonical(json, legacy);
    }
  }

  // ----- References -----

  /** The explicit key references of a validated value. */
  function References(value: Json): set<string> {
    set rule | rule in Items(Get(value, "rules")) && Get(rule, "kms_key_reference").Text?
      :: Get(rule, "kms_key_reference").text
  }

  lemma ReferenceKept(rule: Json)
    ensures Get(NormalRule(rule), "kms_key_reference") == LegacyReference(rule)
  {
  }

  predicate Cites(rule: Json, reference: string) {
    Get(rule, "kms_key_reference") == Text(reference)
  }

  lemma CitedInNormal(rules: seq<Json>, reference: string)
    ensures (exists rule :: rule in NormalRules(rules) && Cites(rule, reference)) <==>
              exists rule :: rule in rules && LegacyReference(rule) == Text(reference)
  {
    forall i | 0 <= i < |rules|
      ensures Cites(NormalRules(rules)[i], reference) <==> LegacyReference(rules[i]) == Text(reference)
    {
      ReferenceKept(rules[i]);
    }
    if rule :| rule in rules && LegacyReference(rule) == Text(reference) {
      var i :| 0 <= i < |rules| && rules[i] == rule;
      assert NormalRules(rules)[i] in NormalRules(rules);
    }
  }

  /** Normalising neither invents nor loses a key reference. */
  lemma ReferencesPreserved(json: Json -> string, value: Json, reference: string)
    requires Normalized(json, value).Some?
    ensures reference in References(Normalized(json, value).value) <==>
              exists rule :: rule in Get(value, "Rules").items && LegacyReference(rule) == Text(reference)
  {
    var rules := NormalRules(Get(value, "Rules").items);
    assert Normalized(json, value).value.fields["rules"].items == Sort(rules, ByText(json));
    ByTextOrders(json);
    SortMembers(rules, ByText(json));
    CitedInNormal(Get(value, "Rules").items, reference);
    assert (exists rule :: rule in Sort(rules, ByText(json)) && Cites(rule, reference))
           <==> (exists rule :: rule in rules && Cites(rule, reference));
    MemberCites(Normalized(json, value).value, reference);
  }

  lemma MemberCites(value: Json, reference: string)
    ensures reference in References(value) <==>
              exists rule :: rule in Items(Get(value, "rules")) && Cites(rule, reference)
  {
    if rule :| rule in Items(Get(value, "rules")) && Cites(rule, reference) {
      assert Get(rule, "kms_key_reference").Text?;
    }
  }
}
