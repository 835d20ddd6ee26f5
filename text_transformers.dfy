// Text transformers: a similarity score between two TEXT columns, and extractions
// from one TEXT column (its length, an e-mail domain, the number of regex matches).

module TextTransformers {
  import opened Wrappers
  import opened Strings
  import opened ColumnSpecification
  import opened TransformerBase

  /** The named regular expressions of `CommonPatterns`, in declaration order. */
  datatype CommonPatterns =
    | DIGITS | LETTER | UPPERCASE | LOWERCASE | NON_ALPHANUMERIC | WHITESPACE
    | CONSECUTIVE_DIGITS | CONSECUTIVE_LETTERS
    | SPECIAL_SYMBOLS | PUNCTUATION
    | DOT | SLASH | AT_SIGN | HYPHEN | UNDERSCORE
    | NON_ASCII | ZERO_WIDTH

  const AllPatterns: seq<CommonPatterns> := [
    DIGITS, LETTER, UPPERCASE, LOWERCASE, NON_ALPHANUMERIC, WHITESPACE,
    CONSECUTIVE_DIGITS, CONSECUTIVE_LETTERS, SPECIAL_SYMBOLS, PUNCTUATION,
    DOT, SLASH, AT_SIGN, HYPHEN, UNDERSCORE, NON_ASCII, ZERO_WIDTH]

  /** The member's value: the regex text as written (raw strings, so backslashes are literal). */
  function Value(p: CommonPatterns): string
  {
    match p
    case DIGITS => @"\d"
    case LETTER => @"[A-Za-z]"
    case UPPERCASE => @"[A-Z]"
    case LOWERCASE => @"[a-z]"
    case NON_ALPHANUMERIC => @"[^A-Za-z0-9]"
    case WHITESPACE => @"\s"
    case CONSECUTIVE_DIGITS => @"\d{3,}"
    case CONSECUTIVE_LETTERS => @"[A-Za-z]{5,}"
    case SPECIAL_SYMBOLS => @"[!@#$%^&*_=+|~<>]"
    case PUNCTUATION => @"[.,;:!?]"
    case DOT => @"\."
    case SLASH => @"/"
    case AT_SIGN => @"@"
    case HYPHEN => @"-"
    case UNDERSCORE => @"_"
    case NON_ASCII => @"[^\x00-\x7F]"
    case ZERO_WIDTH => @"[\u200B-\u200D\uFEFF]"
  }

  /** The member's name, `pattern.name`. */
  function MemberName(p: CommonPatterns): string
  {
    match p
    case DIGITS => "DIGITS"
    case LETTER => "LETTER"
    case UPPERCASE => "UPPERCASE"
    case LOWERCASE => "LOWERCASE"
    case NON_ALPHANUMERIC => "NON_ALPHANUMERIC"
    case WHITESPACE => "WHITESPACE"
    case CONSECUTIVE_DIGITS => "CONSECUTIVE_DIGITS"
    case CONSECUTIVE_LETTERS => "CONSECUTIVE_LETTERS"
    case SPECIAL_SYMBOLS => "SPECIAL_SYMBOLS"
    case PUNCTUATION => "PUNCTUATION"
    case DOT => "DOT"
    case SLASH => "SLASH"
    case AT_SIGN => "AT_SIGN"
    case HYPHEN => "HYPHEN"
    case UNDERSCORE => "UNDERSCORE"
    case NON_ASCII => "NON_ASCII"
    case ZERO_WIDTH => "ZERO_WIDTH"
  }

  /** `str.lower()` restricted to ASCII, which is all the member names use. */
  function Lower(s: string): (r: string)
    ensures |r| == |s|
    ensures forall i :: 0 <= i < |s| ==> r[i] == if 'A' <= s[i] <= 'Z' then (s[i] as int + 32) as char else s[i]
  {
    if |s| == 0 then ""
    else [if 'A' <= s[0] <= 'Z' then (s[0] as int + 32) as char else s[0]] + Lower(s[1..])
  }

  function HumanName(p: CommonPatterns): string
  {
    Lower(MemberName(p))
  }

  /** Different members have different values, so a value identifies its member. */
  lemma ValueInjective(p: CommonPatterns, q: CommonPatterns)
    requires Value(p) == Value(q)
    ensures p == q
  {
    assert |Value(p)| == |Value(q)| && Value(p)[0] == Value(q)[0];
    assert |Value(p)| > 1 ==> Value(p)[1] == Value(q)[1];
    assert |Value(p)| > 2 ==> Value(p)[2] == Value(q)[2];
  }

  /** What `_resolve_pattern` accepts: a member, a `(regex, name)` tuple, or a bare string. */
  datatype PatternInput = Member(pattern: CommonPatterns) | Tuple(regex: string, name: string) | Raw(text: string)

  datatype ResolvedPattern = ResolvedPattern(regex: string, name: string)

  /** The first member, in declaration order, whose value is `s`. */
  function FirstWithValue(patterns: seq<CommonPatterns>, s: string): (r: Option<CommonPatterns>)
    ensures r.None? <==> forall i :: 0 <= i < |patterns| ==> Value(patterns[i]) != s
    ensures r.Some? ==> r.value in patterns && Value(r.value) == s
    decreases |patterns|
  {
    if |patterns| == 0 then None
    else if Value(patterns[0]) == s then Some(patterns[0])
    else
      var rest := FirstWithValue(patterns[1..], s);
      assert forall i :: 1 <= i < |patterns| ==> patterns[i] == patterns[1..][i - 1];
      rest
  }

  /** A member stands for its value under its lower-cased name. */
  function MemberResolved(p: CommonPatterns): ResolvedPattern
  {
    ResolvedPattern(Value(p), HumanName(p))
  }

  function ResolvePattern(pattern: PatternInput): ResolvedPattern
  {
    match pattern
    case Member(p) => MemberResolved(p)
    case Tuple(regex, name) => ResolvedPattern(regex, name)
    case Raw(s) => ResolveRaw(FirstWithValue(AllPatterns, s), s)
  }

  /** A bare string resolves as the member found for it, or else as itself. */
  function ResolveRaw(found: Option<CommonPatterns>, s: string): ResolvedPattern
  {
    match found
    case Some(p) => MemberResolved(p)
    case None => ResolvedPattern(s, s)
  }

  lemma Listed(p: CommonPatterns)
    ensures p in AllPatterns
  {
    match p
    case DIGITS => assert AllPatterns[0] == p;
    case LETTER => assert AllPatterns[1] == p;
    case UPPERCASE => assert AllPatterns[2] == p;
    case LOWERCASE => assert AllPatterns[3] == p;
    case NON_ALPHANUMERIC => assert AllPatterns[4] == p;
    case WHITESPACE => assert AllPatterns[5] == p;
    case CONSECUTIVE_DIGITS => assert AllPatterns[6] == p;
    case CONSECUTIVE_LETTERS => assert AllPatterns[7] == p;
    case SPECIAL_SYMBOLS => assert AllPatterns[8] == p;
    case PUNCTUATION => assert AllPatterns[9] == p;
    case DOT => assert AllPatterns[10] == p;
    case SLASH => assert AllPatterns[11] == p;
    case AT_SIGN => assert AllPatterns[12] == p;
    case HYPHEN => assert AllPatterns[13] == p;
    case UNDERSCORE => assert AllPatterns[14] == p;
    case NON_ASCII => assert AllPatterns[15] == p;
    case ZERO_WIDTH => assert AllPatterns[16] == p;
  }

  /** A member resolves to its value and its lower-cased name. */
  lemma ResolveMember(p: CommonPatterns)
    ensures ResolvePattern(Member(p)) == ResolvedPattern(Value(p), HumanName(p))
  {
  }

  /** A `(regex, name)` tuple resolves verbatim. */
  lemma ResolveTuple(regex: string, name: string)
    ensures ResolvePattern(Tuple(regex, name)) == ResolvedPattern(regex, name)
  {
  }

  /** A string equal to a member's value resolves exactly as the member does. */
  lemma ResolveMemberValue(p: CommonPatterns)
    ensures ResolvePattern(Raw(Value(p))) == ResolvePattern(Member(p))
  {
    OwnValueFound(p);
    ResolveFound(Value(p), p);
  }

  /** A string whose lookup finds a member resolves as that member. */
  lemma ResolveFound(s: string, q: CommonPatterns)
    requires FirstWithValue(AllPatterns, s) == Some(q)
    ensures ResolvePattern(Raw(s)) == ResolvePattern(Member(q))
  {
  }

  /** Looking a member's value up among all members finds that member. */
  lemma OwnValueFound(p: CommonPatterns)
    ensures FirstWithValue(AllPatterns, Value(p)) == Some(p)
  {
    Listed(p);
    FirstWithOwnValue(AllPatterns, p);
  }

  /** Among members, the first whose value is a member's own value is that member. */
  lemma FirstWithOwnValue(patterns: seq<CommonPatterns>, p: CommonPatterns)
    requires p in patterns
    ensures FirstWithValue(patterns, Value(p)) == Some(p)
  {
    var found := FirstWithValue(patterns, Value(p));
    ValueInjective(found.value, p);
  }

  /** Any other string is both the regex and its name. */
  lemma ResolveOtherString(s: string)
    requires forall i :: 0 <= i < |AllPatterns| ==> Value(AllPatterns[i]) != s
    ensures ResolvePattern(Raw(s)) == ResolvedPattern(s, s)
  {
  }

  lemma DigitsExample()
    ensures ResolvePattern(Raw(@"\d")) == ResolvedPattern(@"\d", "digits")
  {
    ResolveMemberValue(DIGITS);
    DigitsName();
  }

  lemma DigitsName()
    ensures HumanName(DIGITS) == "digits"
  {
  }

  datatype TextTransformer =
    | DamerauLevenshtein(left: string, right: string)
    | TextLength(column: string)
    | EmailDomain(column: string)
    | CountMatches(column: string, resolved: ResolvedPattern)

  datatype TextKind = DamerauLevenshteinKind | TextLengthKind | EmailDomainKind | CountMatchesKind

  /** The constructor of the count-matches transformer resolves its pattern once. */
  function NewCountMatches(column: string, pattern: PatternInput): (t: TextTransformer)
    ensures t.CountMatches? && t.column == column
  {
    CountMatches(column, ResolvePattern(pattern))
  }

  function KindOf(t: TextTransformer): TextKind
  {
    match t
    case DamerauLevenshtein(_, _) => DamerauLevenshteinKind
    case TextLength(_) => TextLengthKind
    case EmailDomain(_) => EmailDomainKind
    case CountMatches(_, _) => CountMatchesKind
  }

  predicate IsCommutative(k: TextKind)
  {
    true
  }

  function InputType(t: TextTransformer): ExpectedTypes
  {
    if t.DamerauLevenshtein? then Positions([{Text}, {Text}]) else Single({Text})
  }

  function ReturnType(t: TextTransformer): ColumnType
  {
    if t.EmailDomain? then Nominal else Numeric
  }

  function Name(t: TextTransformer): string
  {
    match t
    case DamerauLevenshtein(l, r) => l + "_damerau_levenshtein_text_similarity_" + r
    case TextLength(c) => c + "_length_chars"
    case EmailDomain(c) => c + "_email_domain"
    case CountMatches(c, p) => c + "_count_" + p.name
  }

  function OutputSpec(t: TextTransformer): (r: ColumnSpec)
    ensures r.name == Name(t) && r.columnType == ReturnType(t) && r.role == Feature
  {
    OutputSpecification(Name(t), ReturnType(t))
  }

  /** Similarity takes two TEXT positions; the extractions take one TEXT column. */
  lemma TextMetadata(t: TextTransformer)
    ensures t.DamerauLevenshtein? ==> InputType(t) == Positions([{Text}, {Text}]) && ReturnType(t) == Numeric
    ensures !t.DamerauLevenshtein? ==> InputType(t) == Single({Text})
    ensures ReturnType(t) == Nominal <==> t.EmailDomain?
    ensures IsCommutative(KindOf(t))
  {
  }

  /** Counting digits in `text` yields the NUMERIC column `text_count_digits`. */
  lemma CountDigitsExample()
    ensures OutputSpec(NewCountMatches("text", Member(DIGITS))) == ColumnSpec("text_count_digits", Numeric, Feature)
  {
    CountMemberOutput("text", DIGITS);
    DigitsName();
    CountDigitsConcatenation();
  }

  lemma CountDigitsConcatenation()
    ensures "text" + "_count_" + "digits" == "text_count_digits"
  {
  }

  /** Counting a member's matches names the column after the member's lower-cased name. */
  lemma CountMemberOutput(column: string, p: CommonPatterns)
    ensures OutputSpec(NewCountMatches(column, Member(p))) == ColumnSpec(column + "_count_" + HumanName(p), Numeric, Feature)
  {
  }

  datatype TextSimilarity = DAMERAU_LEVENSHTEIN
  datatype TextExtraction = LENGTH | EMAIL_DOMAIN

  function SimilarityKind(s: TextSimilarity): TextKind
  {
    DamerauLevenshteinKind
  }

  function ExtractionKind(e: TextExtraction): TextKind
  {
    match e
    case LENGTH => TextLengthKind
    case EMAIL_DOMAIN => EmailDomainKind
  }

  /**
   * A text output name starts with the column it reads (the left one for similarity, which
   * ends with the right one).
   */
  lemma NameReadsColumns(t: TextTransformer)
    ensures !t.DamerauLevenshtein? ==> t.column + "_" <= Name(t)
    ensures t.DamerauLevenshtein? ==> t.left + "_" <= Name(t) && Name(t)[|Name(t)| - |t.right|..] == t.right
  {
  }
}
