/**
 * The response schema the service declares to the remote model
 * (`analysisSchema`), as data, with a validator saying which JSON documents
 * conform to it. The remote service promises conformance; the client itself
 * never checks it.
 */
module ResponseSchema {
  import opened Wrappers
  import opened Types

  /** A parsed JSON document. */
  datatype Json =
    | JNull
    | JBool(b: bool)
    | JNumber(n: real)
    | JString(s: string)
    | JArray(items: seq<Json>)
    | JObject(fields: map<string, Json>)

  /** The subset of the structured-output schema language the declaration uses. */
  datatype Schema =
    | SString(enumValues: Option<seq<string>>)
    | SInteger
    | SNumber
    | SArray(items: Schema)
    | SObject(properties: seq<Property>, required: seq<string>)

  /** A declared property of an object schema, in declaration order. */
  datatype Property = Property(key: string, schema: Schema)

  /** Whether `j` conforms to `s`; properties an object schema does not declare are unconstrained. */
  predicate Conforms(s: Schema, j: Json)
    decreases j
  {
    match s
    case SString(e) => j.JString? && (e.Some? ==> j.s in e.value)
    case SInteger => j.JNumber? && j.n.Floor as real == j.n
    case SNumber => j.JNumber?
    case SArray(item) =>
      j.JArray? && forall i :: 0 <= i < |j.items| ==> Conforms(item, j.items[i])
    case SObject(props, req) =>
      && j.JObject?
      && (forall k :: k in req ==> k in j.fields)
      && (forall i :: 0 <= i < |props| && props[i].key in j.fields ==> Conforms(props[i].schema, j.fields[props[i].key]))
  }

  const Text := SString(None)
  const TextList := SArray(Text)

  const StatusEnum := ["COMPLETE", "INCOMPLETE"]
  const DirectiveEnum := ["BUY", "SELL", "WAIT"]
  const KindEnum := ["TRENDLINE", "ZONE", "FIBONACCI", "MARKER", "LIQUIDITY_GAP"]
  const ColorEnum := ["bull", "bear", "neutral"]
  const RequiredFields := ["status", "tradeDirective", "qualityScore", "whyThisStrategy", "whyNotOpposite", "technicalFactors"]

  const ExecutionPlanSchema := SObject([
    Property("entry", Text),
    Property("stopLoss", Text),
    Property("takeProfit", TextList),
    Property("riskRewardRatio", Text),
    Property("positionSizing", Text)], [])

  const TechnicalFactorsSchema := SObject([
    Property("momentum", Text),
    Property("volatility", Text),
    Property("confluencePoints", TextList)], [])

  const PointSchema := SObject([Property("x", SNumber), Property("y", SNumber)], [])

  const LayerSchema := SObject([
    Property("type", SString(Some(KindEnum))),
    Property("points", SArray(PointSchema)),
    Property("label", Text),
    Property("color", SString(Some(ColorEnum)))], [])

  const ScenarioSchema := SObject([
    Property("primary", Text),
    Property("invalidation", Text),
    Property("alternative", Text)], [])

  /** The declared schema of an analysis reply. */
  const AnalysisSchema := SObject([
    Property("status", SString(Some(StatusEnum))),
    Property("missingData", TextList),
    Property("pair", Text),
    Property("timeframe", Text),
    Property("marketOverview", Text),
    Property("bias", Text),
    Property("tradeDirective", SString(Some(DirectiveEnum))),
    Property("waitReason", Text),
    Property("waitDuration", Text),
    Property("executionPlan", ExecutionPlanSchema),
    Property("technicalFactors", TechnicalFactorsSchema),
    Property("drawingLayers", SArray(LayerSchema)),
    Property("qualityScore", SInteger),
    Property("reasoningConfidence", Text),
    Property("whyThisStrategy", Text),
    Property("whyNotOpposite", Text),
    Property("scenarioAnalysis", ScenarioSchema)], RequiredFields)

  /** A string field of an object, when present and a string. */
  function TextField(j: Json, key: string): (r: Option<string>)
    ensures r.Some? <==> j.JObject? && key in j.fields && j.fields[key].JString?
    ensures r.Some? ==> j.fields[key] == JString(r.value)
  {
    if j.JObject? && key in j.fields && j.fields[key].JString? then Some(j.fields[key].s) else None
  }

  /** The enumerations of the schema are exactly the wire names of the model's enumerations. */
  lemma EnumsMatchTypes()
    ensures forall s: Status :: StatusName(s) in StatusEnum
    ensures forall i :: 0 <= i < |StatusEnum| ==> ParseStatus(StatusEnum[i]).Some?
    ensures forall d: Directive :: DirectiveName(d) in DirectiveEnum
    ensures forall i :: 0 <= i < |DirectiveEnum| ==> ParseDirective(DirectiveEnum[i]).Some?
    ensures forall k: LayerKind :: KindName(k) in KindEnum
    ensures forall i :: 0 <= i < |KindEnum| ==> ParseKind(KindEnum[i]).Some?
    ensures forall c: LayerColor :: ColorName(c) in ColorEnum
    ensures forall i :: 0 <= i < |ColorEnum| ==> ParseColor(ColorEnum[i]).Some?
  {
  }

  /** A conforming reply names a status and a directive the client understands, and has all six required fields. */
  lemma ConformingHeader(j: Json)
    requires Conforms(AnalysisSchema, j)
    ensures j.JObject?
    ensures forall i :: 0 <= i < |RequiredFields| ==> RequiredFields[i] in j.fields
    ensures TextField(j, "status").Some? && ParseStatus(TextField(j, "status").value).Some?
    ensures TextField(j, "tradeDirective").Some? && ParseDirective(TextField(j, "tradeDirective").value).Some?
    ensures j.fields["qualityScore"].JNumber? && j.fields["qualityScore"].n.Floor as real == j.fields["qualityScore"].n
  {
    var props := AnalysisSchema.properties;
    assert RequiredFields[0] in j.fields && RequiredFields[1] in j.fields && RequiredFields[2] in j.fields;
    assert props[0] == Property("status", SString(Some(StatusEnum)));
    assert Conforms(props[0].schema, j.fields[props[0].key]);
    assert props[6] == Property("tradeDirective", SString(Some(DirectiveEnum)));
    assert Conforms(props[6].schema, j.fields[props[6].key]);
    assert props[12] == Property("qualityScore", SInteger);
    assert Conforms(props[12].schema, j.fields[props[12].key]);
    EnumsMatchTypes();
  }

  /** Every drawing layer of a conforming reply has a known kind and colour, whenever it states them. */
  lemma ConformingLayers(j: Json)
    requires Conforms(AnalysisSchema, j)
    requires "drawingLayers" in j.fields
    ensures j.fields["drawingLayers"].JArray?
    ensures forall i :: 0 <= i < |j.fields["drawingLayers"].items| ==>
      var layer := j.fields["drawingLayers"].items[i];
      && layer.JObject?
      && ("type" in layer.fields ==> TextField(layer, "type").Some? && ParseKind(TextField(layer, "type").value).Some?)
      && ("color" in layer.fields ==> TextField(layer, "color").Some? && ParseColor(TextField(layer, "color").value).Some?)
  {
    var props := AnalysisSchema.properties;
    assert props[11] == Property("drawingLayers", SArray(LayerSchema));
    var layers := j.fields["drawingLayers"];
    assert Conforms(SArray(LayerSchema), layers);
    EnumsMatchTypes();
    forall i | 0 <= i < |layers.items|
      ensures layers.items[i].JObject?
      ensures "type" in layers.items[i].fields ==> TextField(layers.items[i], "type").Some? && ParseKind(TextField(layers.items[i], "type").value).Some?
      ensures "color" in layers.items[i].fields ==> TextField(layers.items[i], "color").Some? && ParseColor(TextField(layers.items[i], "color").value).Some?
    {
      var layer := layers.items[i];
      assert Conforms(LayerSchema, layer);
      assert LayerSchema.properties[0] == Property("type", SString(Some(KindEnum)));
      assert LayerSchema.properties[3] == Property("color", SString(Some(ColorEnum)));
    }
  }

  /** Every field an object has for a declared property conforms to that property's schema. */
  predicate DeclaredFieldsConform(props: seq<Property>, fields: map<string, Json>) {
    forall i :: 0 <= i < |props| && props[i].key in fields ==> Conforms(props[i].schema, fields[props[i].key])
  }

  /** Every property declared under `key` has schema `s`. */
  predicate DeclaredAs(props: seq<Property>, key: string, s: Schema) {
    forall i :: 0 <= i < |props| && props[i].key == key ==> props[i].schema == s
  }

  /** An object conforms exactly when it has the required keys and its declared fields conform. */
  lemma ObjectConforms(props: seq<Property>, required: seq<string>, fields: map<string, Json>)
    ensures Conforms(SObject(props, required), JObject(fields))
      <==> (forall k :: k in required ==> k in fields) && DeclaredFieldsConform(props, fields)
  {
  }

  /** Adding a field that conforms to its declaration keeps the declared fields conforming. */
  lemma AddConformingField(props: seq<Property>, fields: map<string, Json>, key: string, s: Schema, v: Json)
    requires DeclaredFieldsConform(props, fields)
    requires DeclaredAs(props, key, s) && Conforms(s, v)
    ensures DeclaredFieldsConform(props, fields[key := v])
  {
    var updated := fields[key := v];
    forall i | 0 <= i < |props| && props[i].key in updated
      ensures Conforms(props[i].schema, updated[props[i].key])
    {
      if props[i].key != key {
        assert updated[props[i].key] == fields[props[i].key];
      }
    }
  }

  /** How the three header fields of a reply are declared. */
  lemma HeaderDeclarations()
    ensures DeclaredAs(AnalysisSchema.properties, "status", SString(Some(StatusEnum)))
    ensures DeclaredAs(AnalysisSchema.properties, "tradeDirective", SString(Some(DirectiveEnum)))
    ensures DeclaredAs(AnalysisSchema.properties, "qualityScore", SInteger)
  {
  }

  /** How the two explanation fields are declared. */
  lemma ExplanationDeclarations()
    ensures DeclaredAs(AnalysisSchema.properties, "whyThisStrategy", Text)
    ensures DeclaredAs(AnalysisSchema.properties, "whyNotOpposite", Text)
  {
  }

  /** How the technical factors are declared. */
  lemma FactorsDeclaration()
    ensures DeclaredAs(AnalysisSchema.properties, "technicalFactors", TechnicalFactorsSchema)
  {
  }

  /** How the execution plan is declared. */
  lemma PlanDeclaration()
    ensures DeclaredAs(AnalysisSchema.properties, "executionPlan", ExecutionPlanSchema)
  {
  }

  /** The smallest reply the schema admits: the six required fields and nothing else. */
  function MinimalReply(status: Status, directive: Directive, score: int): (j: Json)
    ensures j.JObject? && |j.fields| == |RequiredFields|
    ensures forall i :: 0 <= i < |RequiredFields| ==> RequiredFields[i] in j.fields
  {
    JObject(map[
      "status" := JString(StatusName(status)),
      "tradeDirective" := JString(DirectiveName(directive)),
      "qualityScore" := JNumber(score as real),
      "whyThisStrategy" := JString(""),
      "whyNotOpposite" := JString(""),
      "technicalFactors" := JObject(map[])])
  }

  /** The required list is complete: the six fields alone, with known enum values, already conform. */
  lemma MinimalReplyConforms(status: Status, directive: Directive, score: int)
    ensures Conforms(AnalysisSchema, MinimalReply(status, directive, score))
  {
    var props := AnalysisSchema.properties;
    var f0: map<string, Json> := map[];
    var f1 := f0["status" := JString(StatusName(status))];
    var f2 := f1["tradeDirective" := JString(DirectiveName(directive))];
    var f3 := f2["qualityScore" := JNumber(score as real)];
    var f4 := f3["whyThisStrategy" := JString("")];
    var f5 := f4["whyNotOpposite" := JString("")];
    var f6 := f5["technicalFactors" := JObject(map[])];
    HeaderDeclarations();
    ExplanationDeclarations();
    FactorsDeclaration();
    StatusNamesListed(status);
    DirectiveNamesListed(directive);
    assert Conforms(TechnicalFactorsSchema, JObject(map[]));
    AddConformingField(props, f0, "status", SString(Some(StatusEnum)), JString(StatusName(status)));
    AddConformingField(props, f1, "tradeDirective", SString(Some(DirectiveEnum)), JString(DirectiveName(directive)));
    AddConformingField(props, f2, "qualityScore", SInteger, JNumber(score as real));
    AddConformingField(props, f3, "whyThisStrategy", Text, JString(""));
    AddConformingField(props, f4, "whyNotOpposite", Text, JString(""));
    AddConformingField(props, f5, "technicalFactors", TechnicalFactorsSchema, JObject(map[]));
    assert MinimalReply(status, directive, score).fields == f6;
    ObjectConforms(props, RequiredFields, f6);
  }

  lemma StatusNamesListed(s: Status)
    ensures StatusName(s) in StatusEnum
  {
  }

  lemma DirectiveNamesListed(d: Directive)
    ensures DirectiveName(d) in DirectiveEnum
  {
  }

  /** Every required field is needed: an object without any one of the six does not conform, whatever else it holds. */
  lemma EveryRequiredFieldIsNeeded(fields: map<string, Json>, i: nat)
    requires i < |RequiredFields|
    ensures !Conforms(AnalysisSchema, JObject(fields - {RequiredFields[i]}))
  {
    assert RequiredFields[i] in AnalysisSchema.required;
  }

  /** A WAIT reply carrying an execution plan; the comment in types.ts forbids it, the schema does not. */
  const WaitWithPlan: Json := JObject(MinimalReply(Complete, Wait, 80).fields["executionPlan" := JObject(map[])])

  /** The schema does not enforce the documented rule that only BUY or SELL carry an execution plan. */
  lemma SchemaAdmitsWaitWithPlan()
    ensures Conforms(AnalysisSchema, WaitWithPlan)
    ensures TextField(WaitWithPlan, "tradeDirective") == Some("WAIT") && "executionPlan" in WaitWithPlan.fields
  {
    var fields := MinimalReply(Complete, Wait, 80).fields;
    var props := AnalysisSchema.properties;
    MinimalReplyConforms(Complete, Wait, 80);
    ObjectConforms(props, RequiredFields, fields);
    PlanDeclaration();
    assert Conforms(ExecutionPlanSchema, JObject(map[]));
    AddConformingField(props, fields, "executionPlan", ExecutionPlanSchema, JObject(map[]));
    ObjectConforms(props, RequiredFields, fields["executionPlan" := JObject(map[])]);
  }
}
