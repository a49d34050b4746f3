// Request-schema validators of the perception-gap API (app/schemas.py): the
// four axes, the keying sign, the MBTI type list and the numeric field bounds.
module Schemas {
  import opened Wrappers
  import Text

  /** The four perception axes, in the fixed order DIMENSIONS = (EI, SN, TF, JP). */
  datatype Dim = EI | SN | TF | JP

  const Dimensions: seq<Dim> := [EI, SN, TF, JP]

  /** The position of an axis in DIMENSIONS. */
  function DimIndex(d: Dim): (k: nat)
    ensures k < |Dimensions| && Dimensions[k] == d
  {
    match d
    case EI => 0
    case SN => 1
    case TF => 2
    case JP => 3
  }

  /** One value per axis: the dictionaries keyed by DIMENSIONS that always
    * hold all four keys. */
  datatype PerDim<T> = PerDim(ei: T, sn: T, tf: T, jp: T) {
    function Get(d: Dim): T {
      match d
      case EI => ei
      case SN => sn
      case TF => tf
      case JP => jp
    }

    function Set(d: Dim, v: T): (r: PerDim<T>)
      ensures r.Get(d) == v && forall e :: e != d ==> r.Get(e) == Get(e)
    {
      match d
      case EI => this.(ei := v)
      case SN => this.(sn := v)
      case TF => this.(tf := v)
      case JP => this.(jp := v)
    }
  }

  function Uniform<T>(v: T): PerDim<T> {
    PerDim(v, v, v, v)
  }

  /** The first pole of each dimension (E, S, T, J; MBTI_POSITIVE in the
    * participants router). */
  function PositiveLetter(d: Dim): char {
    match d
    case EI => 'E'
    case SN => 'S'
    case TF => 'T'
    case JP => 'J'
  }

  /** The second pole of each dimension (I, N, F, P; MBTI_NEGATIVE). */
  function NegativeLetter(d: Dim): char {
    match d
    case EI => 'I'
    case SN => 'N'
    case TF => 'F'
    case JP => 'P'
  }

  function DimName(d: Dim): string {
    match d
    case EI => "EI"
    case SN => "SN"
    case TF => "TF"
    case JP => "JP"
  }

  /** QuestionSchema.validate_dim: the value upper-cased must name an axis. */
  function ValidateDim(value: string): (r: Option<Dim>)
    ensures r.Some? <==> Text.Upper(value) in {"EI", "SN", "TF", "JP"}
    ensures r.Some? ==> DimName(r.value) == Text.Upper(value)
  {
    var normalized := Text.Upper(value);
    if normalized == "EI" then Some(EI)
    else if normalized == "SN" then Some(SN)
    else if normalized == "TF" then Some(TF)
    else if normalized == "JP" then Some(JP)
    else None
  }

  /** The validator accepts each axis name in any letter case. */
  lemma ValidateDimAnyCase(d: Dim)
    ensures ValidateDim(DimName(d)) == Some(d)
    ensures ValidateDim(Text.Lower(DimName(d))) == Some(d)
  {
    var n := DimName(d);
    assert Text.Upper(n) == n;
    assert Text.Upper(Text.Lower(n)) == n;
  }

  /** QuestionSchema.validate_sign. */
  function ValidateSign(value: int): (r: Option<int>)
    ensures r.Some? <==> (value == -1 || value == 1)
    ensures r.Some? ==> r.value == value
  {
    if value == -1 || value == 1 then Some(value) else None
  }

  const ValidMbtiTypes: set<string> := {
    "ISTJ", "ISFJ", "INFJ", "INTJ", "ISTP", "ISFP", "INFP", "INTP",
    "ESTP", "ESFP", "ENFP", "ENTP", "ESTJ", "ESFJ", "ENFJ", "ENTJ"
  }

  /** A four-letter type picks one pole of each axis, in axis order. */
  predicate IsTypeCombination(t: string) {
    |t| == 4 && t[0] in "EI" && t[1] in "SN" && t[2] in "TF" && t[3] in "JP"
  }

  /** VALID_MBTI_TYPES is exactly the 16 pole combinations. */
  lemma ValidTypesAreCombinations(t: string)
    ensures t in ValidMbtiTypes <==> IsTypeCombination(t)
  {
    if IsTypeCombination(t) {
      assert t == [t[0], t[1], t[2], t[3]];
    }
  }

  datatype MbtiValueError = MissingValue | InvalidFormat

  /** ProfileCreateRequest.validate_mbti_value. The source falls back to
    * "input" when mbti_source itself failed validation (None here). */
  function ValidateMbtiValue(source: Option<string>, value: Option<string>): (r: Result<Option<string>, MbtiValueError>)
    ensures (source == None || source == Some("input")) ==>
      (r == Err(MissingValue) <==> (value == None || value.value == "")) &&
      (r.Ok? ==> r.value.Some? && r.value.value in ValidMbtiTypes && r.value.value == Text.Upper(value.value))
    ensures !(source == None || source == Some("input")) ==> r == Ok(None)
  {
    var src := if source.Some? then source.value else "input";
    if src == "input" then
      if value == None || value.value == "" then Err(MissingValue)
      else
        var upper := Text.Upper(value.value);
        if upper !in ValidMbtiTypes then Err(InvalidFormat) else Ok(Some(upper))
    else Ok(None)
  }

  /** Any valid type typed in lower case is accepted and normalised. */
  lemma MbtiValueLowerAccepted(t: string)
    requires t in ValidMbtiTypes
    ensures ValidateMbtiValue(Some("input"), Some(Text.Lower(t))) == Ok(Some(t))
  {
    ValidTypesAreCombinations(t);
    assert Text.Upper(Text.Lower(t)) == t;
  }
}
