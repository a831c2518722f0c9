/**
 * The option schemas of the three Mistral variants. Each schema declares, per
 * field, an inclusive range and a default; the large variant declares no
 * `top_k`. Constructing options checks every supplied value against its range
 * and fills every omitted field with its default.
 */
module OptionSchemas {
  import opened Wrappers

  /** An integer field: inclusive bounds `min..max` and the default used when it is omitted. */
  datatype IntField = IntField(min: int, max: int, default: int)

  /** A numeric field carried as a real: inclusive bounds and default. */
  datatype RealField = RealField(min: real, max: real, default: real)

  /** One variant's declared schema; `topK` is `None` when the variant has no `top_k` field. */
  datatype Schema = Schema(maxTokens: IntField, temperature: RealField, topP: RealField, topK: Option<IntField>)

  /** The options of Mistral-7B-Instruct. */
  const Mistral7Schema: Schema :=
    Schema(IntField(1, 8192, 512), RealField(0.0, 1.0, 0.5), RealField(0.0, 1.0, 0.9), Some(IntField(1, 200, 50)))

  /** The options of Mixtral-8x7B-Instruct. */
  const Mixtral8Schema: Schema :=
    Schema(IntField(1, 4096, 512), RealField(0.0, 1.0, 0.5), RealField(0.0, 1.0, 0.9), Some(IntField(1, 200, 50)))

  /** The options of Mistral Large, which has no `top_k`. */
  const MistralLargeSchema: Schema :=
    Schema(IntField(1, 8192, 8192), RealField(0.0, 1.0, 0.7), RealField(0.0, 1.0, 1.0), None)

  /** A constructed options object; `topK` is `None` for a schema without that field. */
  datatype Options = Options(maxTokens: int, temperature: real, topP: real, topK: Option<int>)

  /** The values a caller supplies when constructing options; `None` means omitted. */
  datatype Supplied = Supplied(maxTokens: Option<int>, temperature: Option<real>, topP: Option<real>, topK: Option<int>)

  const NothingSupplied: Supplied := Supplied(None, None, None, None)

  datatype FieldName = MaxTokens | Temperature | TopP | TopK

  /** Why a supplied value was refused. */
  datatype Problem = BelowMin | AboveMax | Undeclared

  datatype Violation = Violation(field: FieldName, problem: Problem)

  predicate IntWithin(f: IntField, v: int) { f.min <= v <= f.max }

  predicate RealWithin(f: RealField, v: real) { f.min <= v <= f.max }

  /** Options `o` are admissible under schema `s`: every field within its bounds, `top_k` present exactly when declared. */
  predicate Valid(s: Schema, o: Options) {
    IntWithin(s.maxTokens, o.maxTokens)
    && RealWithin(s.temperature, o.temperature)
    && RealWithin(s.topP, o.topP)
    && match s.topK
       case None => o.topK.None?
       case Some(f) => o.topK.Some? && IntWithin(f, o.topK.value)
  }

  /** Every default of `s` lies within its own bounds. */
  predicate WellFormed(s: Schema) {
    IntWithin(s.maxTokens, s.maxTokens.default)
    && RealWithin(s.temperature, s.temperature.default)
    && RealWithin(s.topP, s.topP.default)
    && (s.topK.Some? ==> IntWithin(s.topK.value, s.topK.value.default))
  }

  /** The options obtained when every field is omitted. */
  function Defaults(s: Schema): (o: Options)
    ensures WellFormed(s) ==> Valid(s, o)
  {
    Options(s.maxTokens.default, s.temperature.default, s.topP.default,
            match s.topK case None => None case Some(f) => Some(f.default))
  }

  // ---------------------------------------------------------------------------
  // Validation

  /** Specification of a refusal: `v` names a supplied field whose value the schema refuses, and why. */
  predicate Violates(s: Schema, req: Supplied, v: Violation) {
    match v.field
    case MaxTokens => req.maxTokens.Some? && IntRefuses(s.maxTokens, req.maxTokens.value, v.problem)
    case Temperature => req.temperature.Some? && RealRefuses(s.temperature, req.temperature.value, v.problem)
    case TopP => req.topP.Some? && RealRefuses(s.topP, req.topP.value, v.problem)
    case TopK => Violates'TopK(s.topK, req.topK, v.problem)
  }

  /** `top_k` is refused when supplied to a schema without it, or when out of its bounds. */
  predicate Violates'TopK(f: Option<IntField>, x: Option<int>, p: Problem) {
    x.Some? &&
    match f
    case None => p == Undeclared
    case Some(g) => IntRefuses(g, x.value, p)
  }

  /** A value below the minimum is reported as such, even if it also exceeds the maximum. */
  predicate IntRefuses(f: IntField, x: int, p: Problem) {
    (p == BelowMin && x < f.min) || (p == AboveMax && f.min <= x && x > f.max)
  }

  predicate RealRefuses(f: RealField, x: real, p: Problem) {
    (p == BelowMin && x < f.min) || (p == AboveMax && f.min <= x && x > f.max)
  }

  function CheckInt(name: FieldName, f: IntField, x: Option<int>): (r: seq<Violation>)
    ensures forall v :: v in r <==> v.field == name && x.Some? && IntRefuses(f, x.value, v.problem)
  {
    match x
    case None => []
    case Some(v) =>
      if v < f.min then [Violation(name, BelowMin)]
      else if v > f.max then [Violation(name, AboveMax)]
      else []
  }

  function CheckReal(name: FieldName, f: RealField, x: Option<real>): (r: seq<Violation>)
    ensures forall v :: v in r <==> v.field == name && x.Some? && RealRefuses(f, x.value, v.problem)
  {
    match x
    case None => []
    case Some(v) =>
      if v < f.min then [Violation(name, BelowMin)]
      else if v > f.max then [Violation(name, AboveMax)]
      else []
  }

  function CheckTopK(f: Option<IntField>, x: Option<int>): (r: seq<Violation>)
    ensures forall v :: v in r <==> v.field == TopK && Violates'TopK(f, x, v.problem)
  {
    match f
    case None => if x.Some? then [Violation(TopK, Undeclared)] else []
    case Some(g) => CheckInt(TopK, g, x)
  }

  /** Every violation of `req` under `s`, in field declaration order. */
  function Violations(s: Schema, req: Supplied): (r: seq<Violation>)
    ensures forall v :: v in r <==> Violates(s, req, v)
  {
    CheckInt(MaxTokens, s.maxTokens, req.maxTokens)
    + CheckReal(Temperature, s.temperature, req.temperature)
    + CheckReal(TopP, s.topP, req.topP)
    + CheckTopK(s.topK, req.topK)
  }

  /**
   * Constructs options from the supplied values: fails listing every refused
   * field, and otherwise takes each supplied value and fills the rest with defaults.
   */
  function Validate(s: Schema, req: Supplied): (r: Result<Options, seq<Violation>>)
    ensures r.Success? <==> forall v :: !Violates(s, req, v)
    ensures r.Failure? ==> r.error != [] && forall v :: v in r.error <==> Violates(s, req, v)
    ensures r.Success? ==>
      && r.value.maxTokens == req.maxTokens.GetOr(s.maxTokens.default)
      && r.value.temperature == req.temperature.GetOr(s.temperature.default)
      && r.value.topP == req.topP.GetOr(s.topP.default)
      && (r.value.topK.Some? <==> s.topK.Some?)
      && (s.topK.Some? ==> r.value.topK.value == req.topK.GetOr(s.topK.value.default))
    ensures r.Success? && WellFormed(s) ==> Valid(s, r.value)
  {
    var errors := Violations(s, req);
    if errors != [] then
      assert Violates(s, req, errors[0]);
      Failure(errors)
    else
      var d := Defaults(s);
      Success(Options(req.maxTokens.GetOr(d.maxTokens), req.temperature.GetOr(d.temperature),
                      req.topP.GetOr(d.topP),
                      if s.topK.Some? then Some(req.topK.GetOr(d.topK.value)) else None))
  }

  // ---------------------------------------------------------------------------
  // Properties of the three declared schemas

  /** Every default of every variant lies within its own bounds. */
  lemma SchemasWellFormed()
    ensures WellFormed(Mistral7Schema) && WellFormed(Mixtral8Schema) && WellFormed(MistralLargeSchema)
  {
  }

  /** Constructing options with nothing supplied succeeds and yields the defaults. */
  lemma ValidateNothingSupplied(s: Schema)
    ensures Validate(s, NothingSupplied) == Success(Defaults(s))
  {
  }

  /** Mistral-7B: `max_tokens` admits exactly 1..8192 (default 512), `top_k` exactly 1..200 (default 50). */
  lemma Mistral7Ranges(m: int, k: int)
    ensures Validate(Mistral7Schema, Supplied(Some(m), None, None, None)).Success? <==> 1 <= m <= 8192
    ensures Validate(Mistral7Schema, Supplied(None, None, None, Some(k))).Success? <==> 1 <= k <= 200
    ensures Defaults(Mistral7Schema).maxTokens == 512 && Defaults(Mistral7Schema).topK == Some(50)
  {
  }

  /** Mixtral-8x7B: `max_tokens` admits exactly 1..4096 (default 512), `top_k` exactly 1..200 (default 50). */
  lemma Mixtral8Ranges(m: int, k: int)
    ensures Validate(Mixtral8Schema, Supplied(Some(m), None, None, None)).Success? <==> 1 <= m <= 4096
    ensures Validate(Mixtral8Schema, Supplied(None, None, None, Some(k))).Success? <==> 1 <= k <= 200
    ensures Defaults(Mixtral8Schema).maxTokens == 512 && Defaults(Mixtral8Schema).topK == Some(50)
  {
  }

  /**
   * Mistral Large: `max_tokens` admits exactly 1..8192 and defaults to the upper
   * bound 8192; it has no `top_k`, so supplying one is refused.
   */
  lemma MistralLargeRanges(m: int, k: int)
    ensures Validate(MistralLargeSchema, Supplied(Some(m), None, None, None)).Success? <==> 1 <= m <= 8192
    ensures Defaults(MistralLargeSchema).maxTokens == MistralLargeSchema.maxTokens.max == 8192
    ensures Defaults(MistralLargeSchema).topK.None?
    ensures Validate(MistralLargeSchema, Supplied(None, None, None, Some(k))) == Failure([Violation(TopK, Undeclared)])
  {
    assert Violations(MistralLargeSchema, Supplied(None, None, None, Some(k))) == [Violation(TopK, Undeclared)];
    assert !Violates(MistralLargeSchema, Supplied(Some(m), None, None, None), Violation(MaxTokens, BelowMin)) ==> 1 <= m;
    assert !Violates(MistralLargeSchema, Supplied(Some(m), None, None, None), Violation(MaxTokens, AboveMax)) ==> m <= 8192;
  }
}
