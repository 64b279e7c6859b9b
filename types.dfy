/**
 * The shared result and status types (types.ts), and the JSON form an
 * `AnalysisResponse` takes on the wire (`JSON.stringify` of the record, and the
 * shape a parsed body must have for the record's fields to be there).
 */
module Types {
  import opened Wrappers
  import opened Json

  /** The overall risk of a contract: exactly one of three values. */
  datatype RiskLevel = Baixo | Medio | Alto

  /** The three spellings of a risk level, in the order the schema lists them. */
  const RiskLevelNames: seq<string> := ["BAIXO", "MÉDIO", "ALTO"]

  function RiskLevelName(level: RiskLevel): (name: string)
    ensures name in RiskLevelNames
  {
    match level
    case Baixo => "BAIXO"
    case Medio => "MÉDIO"
    case Alto => "ALTO"
  }

  /** The risk level a string spells, if it spells one exactly. */
  function ParseRiskLevel(name: string): (r: Option<RiskLevel>)
    ensures r.Some? <==> name in RiskLevelNames
    ensures r.Some? ==> RiskLevelName(r.value) == name
  {
    if name == "BAIXO" then Some(Baixo)
    else if name == "MÉDIO" then Some(Medio)
    else if name == "ALTO" then Some(Alto)
    else None
  }

  /** Every risk level is read back from its own spelling. */
  lemma RiskLevelNameRoundTrip(level: RiskLevel)
    ensures ParseRiskLevel(RiskLevelName(level)) == Some(level)
  {
  }

  /** A problematic clause; all four fields are mandatory. */
  datatype RiskClause = RiskClause(clause: string, reason: string, impact: string, recommendation: string)

  /** A clause favourable to the reader; both fields are mandatory. */
  datatype FavorableTerm = FavorableTerm(clause: string, benefit: string)

  /** The structured analysis of one contract. */
  datatype AnalysisResponse = AnalysisResponse(
    executiveSummary: string,
    contractType: string,
    riskLevel: RiskLevel,
    riskClauses: seq<RiskClause>,
    missingTerms: seq<string>,
    favorableTerms: seq<FavorableTerm>,
    practicalRecommendations: seq<string>,
    clientQuestions: seq<string>)

  /** Where the application is in one analysis. */
  datatype AnalysisStatus = Idle | Analyzing | Completed | Error

  /** The string value of each status in the enum; no two statuses share one. */
  function StatusName(status: AnalysisStatus): (name: string)
    ensures status == Idle <==> name == "IDLE"
    ensures status == Analyzing <==> name == "ANALYZING"
    ensures status == Completed <==> name == "COMPLETED"
    ensures status == Error <==> name == "ERROR"
  {
    match status
    case Idle => "IDLE"
    case Analyzing => "ANALYZING"
    case Completed => "COMPLETED"
    case Error => "ERROR"
  }

  /** The field names of each record, in declaration order. */
  const ResponseFieldNames: seq<string> := [
    "executiveSummary", "contractType", "riskLevel", "riskClauses",
    "missingTerms", "favorableTerms", "practicalRecommendations", "clientQuestions"]
  const RiskClauseFieldNames: seq<string> := ["clause", "reason", "impact", "recommendation"]
  const FavorableTermFieldNames: seq<string> := ["clause", "benefit"]

  // ---------------------------------------------------------------------------
  // JSON form
  // ---------------------------------------------------------------------------

  function EncodeAll<T>(xs: seq<T>, encode: T -> Json): (r: seq<Json>)
    ensures |r| == |xs|
    ensures forall i :: 0 <= i < |xs| ==> r[i] == encode(xs[i])
  {
    seq(|xs|, i requires 0 <= i < |xs| => encode(xs[i]))
  }

  /** Decodes every element, or fails if any element fails. */
  function DecodeAll<T>(js: seq<Json>, decode: Json -> Option<T>): (r: Option<seq<T>>)
    ensures r.Some? <==> forall i :: 0 <= i < |js| ==> decode(js[i]).Some?
    ensures r.Some? ==> |r.value| == |js| && forall i :: 0 <= i < |js| ==> decode(js[i]) == Some(r.value[i])
  {
    if js == [] then Some([])
    else
      match (DecodeAll(js[..|js| - 1], decode), decode(js[|js| - 1]))
      case (Some(init), Some(last)) => Some(init + [last])
      case _ => None
  }

  /** Decoding what was encoded element-wise gives the elements back. */
  lemma {:induction false} DecodeAllEncodeAll<T>(xs: seq<T>, encode: T -> Json, decode: Json -> Option<T>)
    requires forall x :: decode(encode(x)) == Some(x)
    ensures DecodeAll(EncodeAll(xs, encode), decode) == Some(xs)
  {
    var r := DecodeAll(EncodeAll(xs, encode), decode);
    assert r.Some?;
    assert |r.value| == |xs|;
    forall i | 0 <= i < |xs| ensures r.value[i] == xs[i] {
      assert decode(encode(xs[i])) == Some(r.value[i]);
    }
    assert r.value == xs;
  }

  function Str(s: string): Json { JStr(s) }

  function EncodeRiskClause(c: RiskClause): (j: Json)
    ensures j.JObj? && Keys(j.fields) == RiskClauseFieldNames
  {
    JObj([("clause", JStr(c.clause)), ("reason", JStr(c.reason)),
          ("impact", JStr(c.impact)), ("recommendation", JStr(c.recommendation))])
  }

  function EncodeFavorableTerm(t: FavorableTerm): (j: Json)
    ensures j.JObj? && Keys(j.fields) == FavorableTermFieldNames
  {
    JObj([("clause", JStr(t.clause)), ("benefit", JStr(t.benefit))])
  }

  /** The JSON object of an analysis; its keys are exactly the eight field names, in order. */
  function Encode(r: AnalysisResponse): (j: Json)
    ensures j.JObj? && Keys(j.fields) == ResponseFieldNames
  {
    JObj([
      ("executiveSummary", JStr(r.executiveSummary)),
      ("contractType", JStr(r.contractType)),
      ("riskLevel", JStr(RiskLevelName(r.riskLevel))),
      ("riskClauses", JArr(EncodeAll(r.riskClauses, EncodeRiskClause))),
      ("missingTerms", JArr(EncodeAll(r.missingTerms, Str))),
      ("favorableTerms", JArr(EncodeAll(r.favorableTerms, EncodeFavorableTerm))),
      ("practicalRecommendations", JArr(EncodeAll(r.practicalRecommendations, Str))),
      ("clientQuestions", JArr(EncodeAll(r.clientQuestions, Str)))])
  }

  function DecodeString(v: Option<Json>): (r: Option<string>)
    ensures r.Some? <==> v.Some? && v.value.JStr?
  {
    if v.Some? && v.value.JStr? then Some(v.value.s) else None
  }

  function AsString(v: Json): Option<string> { DecodeString(Some(v)) }

  function DecodeList<T>(v: Option<Json>, decode: Json -> Option<T>): Option<seq<T>>
  {
    if v.Some? && v.value.JArr? then DecodeAll(v.value.elems, decode) else None
  }

  function DecodeRiskClause(v: Json): Option<RiskClause>
  {
    match (DecodeString(Get(v, "clause")), DecodeString(Get(v, "reason")),
           DecodeString(Get(v, "impact")), DecodeString(Get(v, "recommendation")))
    case (Some(c), Some(r), Some(i), Some(m)) => Some(RiskClause(c, r, i, m))
    case _ => None
  }

  function DecodeFavorableTerm(v: Json): Option<FavorableTerm>
  {
    match (DecodeString(Get(v, "clause")), DecodeString(Get(v, "benefit")))
    case (Some(c), Some(b)) => Some(FavorableTerm(c, b))
    case _ => None
  }

  /** The analysis a parsed JSON value holds, when every field has the declared type. */
  function Decode(v: Json): Option<AnalysisResponse>
  {
    var summary := DecodeString(Get(v, "executiveSummary"));
    var kind := DecodeString(Get(v, "contractType"));
    var level := DecodeString(Get(v, "riskLevel"));
    var clauses := DecodeList(Get(v, "riskClauses"), DecodeRiskClause);
    var missing := DecodeList(Get(v, "missingTerms"), AsString);
    var favorable := DecodeList(Get(v, "favorableTerms"), DecodeFavorableTerm);
    var recommendations := DecodeList(Get(v, "practicalRecommendations"), AsString);
    var questions := DecodeList(Get(v, "clientQuestions"), AsString);
    if && summary.Some? && kind.Some? && level.Some? && ParseRiskLevel(level.value).Some?
       && clauses.Some? && missing.Some? && favorable.Some? && recommendations.Some? && questions.Some?
    then Some(AnalysisResponse(summary.value, kind.value, ParseRiskLevel(level.value).value,
                               clauses.value, missing.value, favorable.value,
                               recommendations.value, questions.value))
    else None
  }

  // ---------------------------------------------------------------------------
  // Lookups in objects whose keys are distinct
  // ---------------------------------------------------------------------------

  predicate DistinctKeys(fields: seq<(string, Json)>)
  {
    forall i, j :: 0 <= i < j < |fields| ==> fields[i].0 != fields[j].0
  }

  /** In an object without duplicate keys, a key finds the value stored beside it. */
  lemma {:induction false} LookupDistinct(fields: seq<(string, Json)>, i: nat)
    requires DistinctKeys(fields)
    requires i < |fields|
    ensures Lookup(fields, fields[i].0) == Some(fields[i].1)
  {
    var n := |fields| - 1;
    if i < n {
      var init := fields[..n];
      assert init[i] == fields[i];
      assert DistinctKeys(init) by {
        forall a, b | 0 <= a < b < |init| ensures init[a].0 != init[b].0 {
          assert init[a] == fields[a] && init[b] == fields[b];
        }
      }
      LookupDistinct(init, i);
    }
  }

  lemma EncodeGet(r: AnalysisResponse)
    ensures Get(Encode(r), "executiveSummary") == Some(JStr(r.executiveSummary))
    ensures Get(Encode(r), "contractType") == Some(JStr(r.contractType))
    ensures Get(Encode(r), "riskLevel") == Some(JStr(RiskLevelName(r.riskLevel)))
    ensures Get(Encode(r), "riskClauses") == Some(JArr(EncodeAll(r.riskClauses, EncodeRiskClause)))
    ensures Get(Encode(r), "missingTerms") == Some(JArr(EncodeAll(r.missingTerms, Str)))
    ensures Get(Encode(r), "favorableTerms") == Some(JArr(EncodeAll(r.favorableTerms, EncodeFavorableTerm)))
    ensures Get(Encode(r), "practicalRecommendations") == Some(JArr(EncodeAll(r.practicalRecommendations, Str)))
    ensures Get(Encode(r), "clientQuestions") == Some(JArr(EncodeAll(r.clientQuestions, Str)))
  {
    var fields := Encode(r).fields;
    assert DistinctKeys(fields);
    LookupDistinct(fields, 0);
    LookupDistinct(fields, 1);
    LookupDistinct(fields, 2);
    LookupDistinct(fields, 3);
    LookupDistinct(fields, 4);
    LookupDistinct(fields, 5);
    LookupDistinct(fields, 6);
    LookupDistinct(fields, 7);
  }

  lemma RiskClauseRoundTrip(c: RiskClause)
    ensures DecodeRiskClause(EncodeRiskClause(c)) == Some(c)
  {
    var fields := EncodeRiskClause(c).fields;
    assert DistinctKeys(fields);
    LookupDistinct(fields, 0);
    LookupDistinct(fields, 1);
    LookupDistinct(fields, 2);
    LookupDistinct(fields, 3);
  }

  lemma FavorableTermRoundTrip(t: FavorableTerm)
    ensures DecodeFavorableTerm(EncodeFavorableTerm(t)) == Some(t)
  {
    var fields := EncodeFavorableTerm(t).fields;
    assert DistinctKeys(fields);
    LookupDistinct(fields, 0);
    LookupDistinct(fields, 1);
  }

  lemma RiskClausesRoundTrip(cs: seq<RiskClause>)
    ensures DecodeList(Some(JArr(EncodeAll(cs, EncodeRiskClause))), DecodeRiskClause) == Some(cs)
  {
    forall c ensures DecodeRiskClause(EncodeRiskClause(c)) == Some(c) {
      RiskClauseRoundTrip(c);
    }
    DecodeAllEncodeAll(cs, EncodeRiskClause, DecodeRiskClause);
  }

  lemma FavorableTermsRoundTrip(ts: seq<FavorableTerm>)
    ensures DecodeList(Some(JArr(EncodeAll(ts, EncodeFavorableTerm))), DecodeFavorableTerm) == Some(ts)
  {
    forall t ensures DecodeFavorableTerm(EncodeFavorableTerm(t)) == Some(t) {
      FavorableTermRoundTrip(t);
    }
    DecodeAllEncodeAll(ts, EncodeFavorableTerm, DecodeFavorableTerm);
  }

  lemma StringsRoundTrip(xs: seq<string>)
    ensures DecodeList(Some(JArr(EncodeAll(xs, Str))), AsString) == Some(xs)
  {
    DecodeAllEncodeAll(xs, Str, AsString);
  }

  /** Decoding the JSON form of an analysis gives the analysis back. */
  lemma DecodeEncode(r: AnalysisResponse)
    ensures Decode(Encode(r)) == Some(r)
  {
    EncodeGet(r);
    RiskLevelNameRoundTrip(r.riskLevel);
    RiskClausesRoundTrip(r.riskClauses);
    FavorableTermsRoundTrip(r.favorableTerms);
    StringsRoundTrip(r.missingTerms);
    StringsRoundTrip(r.practicalRecommendations);
    StringsRoundTrip(r.clientQuestions);
    var v := Encode(r);
    assert DecodeString(Get(v, "executiveSummary")) == Some(r.executiveSummary);
    assert DecodeString(Get(v, "contractType")) == Some(r.contractType);
    assert ParseRiskLevel(DecodeString(Get(v, "riskLevel")).value) == Some(r.riskLevel);
  }
}
