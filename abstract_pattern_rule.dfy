/**
 * The data model shared by LanguageTool's pattern rules and disambiguation
 * rules: identity, a token pattern or a whole-sentence regular expression,
 * three classification flags fixed at construction, and configuration that
 * is set up after construction.
 */
module PatternRules {
  import opened Wrappers

  // ---------------------------------------------------------------------
  // Collaborators whose behaviour lives outside this class
  // ---------------------------------------------------------------------

  /** The natural language a rule is written for. */
  type Language(==)
  /** A compiled java.util.regex.Pattern. */
  type Pattern(==)
  /** A suggestion extractor that pulls text from a matched token. */
  type Match(==)
  /** A post-match hook resolved by name. */
  type RuleFilter(==)
  /** An anti-pattern: a rule whose match immunizes the tokens it covers. */
  type DisambiguationPatternRule(==)

  /** A Java `int`. */
  newtype Int32 = x: int | -0x8000_0000 <= x < 0x8000_0000

  /** The three properties of a pattern token that this class reads. */
  datatype PatternToken = PatternToken(isUnified: bool, hasAndGroup: bool, isSentenceStart: bool)

  // ---------------------------------------------------------------------
  // Classification of a token sequence
  // ---------------------------------------------------------------------

  /** Some token takes part in unification. */
  ghost predicate AnyUnified(tokens: seq<PatternToken>) {
    exists i :: 0 <= i < |tokens| && tokens[i].isUnified
  }

  /** Some token belongs to an AND-group. */
  ghost predicate AnyAndGroup(tokens: seq<PatternToken>) {
    exists i :: 0 <= i < |tokens| && tokens[i].hasAndGroup
  }

  /** The pattern must start at the beginning of a sentence. */
  ghost predicate StartsSentence(tokens: seq<PatternToken>) {
    |tokens| > 0 && tokens[0].isSentenceStart
  }

  // ---------------------------------------------------------------------
  // Construction-time validation
  // ---------------------------------------------------------------------

  /** The exceptions the constructor throws, with their messages. */
  datatype ConstructionError =
    | NullPointer(message: string)
    | IllegalArgument(message: string)

  /**
   * The checks the constructor makes before it stores anything, in the
   * order it makes them: the first one that fails decides the exception.
   */
  function CheckArgs(id: Option<string>, description: Option<string>, language: Option<Language>,
                     tokens: Option<seq<PatternToken>>, regex: Option<Pattern>): (err: Option<ConstructionError>)
    ensures err.None? <==> id.Some? && description.Some? && language.Some? && (tokens.Some? || regex.Some?)
    ensures id.None? ==> err == Some(NullPointer("id cannot be null"))
    ensures id.Some? && description.None? ==> err == Some(NullPointer("description cannot be null"))
    ensures id.Some? && description.Some? && language.None? ==> err == Some(NullPointer("language cannot be null"))
    ensures id.Some? && description.Some? && language.Some? && tokens.None? && regex.None? ==>
              err == Some(IllegalArgument("patternTokens and regex cannot both be null"))
  {
    if id.None? then Some(NullPointer("id cannot be null"))
    else if description.None? then Some(NullPointer("description cannot be null"))
    else if language.None? then Some(NullPointer("language cannot be null"))
    else if tokens.None? && regex.None? then Some(IllegalArgument("patternTokens and regex cannot both be null"))
    else None
  }

  // ---------------------------------------------------------------------
  // Full identity: "ID" or "ID[SUB_ID]"
  // ---------------------------------------------------------------------

  /** The rule id followed, when there is a sub-id, by the sub-id in square brackets. */
  function FullId(id: string, subId: Option<string>): (r: string)
    ensures subId.None? ==> r == id
    ensures subId.Some? ==>
              |r| == |id| + |subId.value| + 2 && r[..|id|] == id && r[|id|] == '[' &&
              r[|id| + 1 .. |r| - 1] == subId.value && r[|r| - 1] == ']'
  {
    match subId
    case None => id
    case Some(s) => id + "[" + s + "]"
  }

  /** The position of the first '[' in `s`, or `|s|` when there is none. */
  function IndexOfOpen(s: string): (k: nat)
    ensures k <= |s|
    ensures forall j :: 0 <= j < k ==> s[j] != '['
    ensures k < |s| ==> s[k] == '['
  {
    if s == [] then 0
    else if s[0] == '[' then 0
    else 1 + IndexOfOpen(s[1..])
  }

  /**
   * Reads a full id back into its id and sub-id, splitting at the first '['.
   * Whatever it accepts, FullId rebuilds exactly.
   */
  function SplitFullId(full: string): (r: Option<(string, Option<string>)>)
    ensures r.Some? ==> '[' !in r.value.0 && FullId(r.value.0, r.value.1) == full
  {
    var k := IndexOfOpen(full);
    if k == |full| then
      Some((full, None))
    else if k + 2 <= |full| && full[|full| - 1] == ']' then
      var r := (full[..k], Some(full[k + 1 .. |full| - 1]));
      assert FullId(r.0, r.1) == full;
      Some(r)
    else
      None
  }

  /** When the id has no '[', the full id determines the id and the sub-id. */
  lemma SplitFullIdInvertsFullId(id: string, subId: Option<string>)
    requires '[' !in id
    ensures SplitFullId(FullId(id, subId)) == Some((id, subId))
  {
  }

  /** Two rules whose ids contain no '[' share a full id only if they share id and sub-id. */
  lemma FullIdInjective(id1: string, subId1: Option<string>, id2: string, subId2: Option<string>)
    requires '[' !in id1 && '[' !in id2
    requires FullId(id1, subId1) == FullId(id2, subId2)
    ensures id1 == id2 && subId1 == subId2
  {
    SplitFullIdInvertsFullId(id1, subId1);
    SplitFullIdInvertsFullId(id2, subId2);
  }

  /** Without a restriction on ids, a bracket in the id can imitate a sub-id. */
  lemma FullIdCollision()
    ensures FullId("A[B]", None) == FullId("A", Some("B"))
  {
  }

  // ---------------------------------------------------------------------
  // The rule
  // ---------------------------------------------------------------------

  /** Everything a rule lets its owner change after construction. */
  datatype Configuration = Configuration(
    subId: Option<string>,
    startPositionCorrection: Int32,
    endPositionCorrection: Int32,
    suggestionsOutMsg: Option<string>,
    filter: Option<RuleFilter>,
    filterArgs: Option<string>,
    message: Option<string>,
    suggestionMatches: seq<Match>,
    suggestionMatchesOutMsg: seq<Match>,
    antiPatterns: seq<DisambiguationPatternRule>)

  /** The configuration of a rule straight after construction. */
  const InitialConfiguration := Configuration(None, 0, 0, None, None, None, None, [], [], [])

  class AbstractPatternRule {
    // Fixed at construction.
    const language: Language
    const patternTokens: Option<seq<PatternToken>>
    const regex: Option<Pattern>
    const testUnification: bool
    const sentStart: bool
    const id: string
    const description: string
    const getUnified: bool
    const groupsOrUnification: bool

    // Grown in place after construction.
    var suggestionMatches: seq<Match>
    var suggestionMatchesOutMsg: seq<Match>
    var antiPatterns: seq<DisambiguationPatternRule>

    // Overwritten by setters.
    var subId: Option<string>
    var startPositionCorrection: Int32
    var endPositionCorrection: Int32
    var suggestionsOutMsg: Option<string>
    var filter: Option<RuleFilter>
    var filterArgs: Option<string>
    var message: Option<string>

    /**
     * Exactly one of the token pattern and the regular expression is present,
     * and each classification flag is what its definition says about the
     * tokens (all three are false for a regular-expression rule).
     */
    ghost predicate Valid() {
      patternTokens.Some? != regex.Some? &&
      testUnification == (patternTokens.Some? && AnyUnified(patternTokens.value)) &&
      groupsOrUnification == (testUnification || (patternTokens.Some? && AnyAndGroup(patternTokens.value))) &&
      sentStart == (patternTokens.Some? && StartsSentence(patternTokens.value))
    }

    ghost function Config(): Configuration
      reads this
    {
      Configuration(subId, startPositionCorrection, endPositionCorrection, suggestionsOutMsg,
                    filter, filterArgs, message, suggestionMatches, suggestionMatchesOutMsg, antiPatterns)
    }

    /**
     * The part of the constructor after its argument checks: store the
     * identity, keep a copy of the tokens if there are any (and then drop the
     * regular expression), and classify the tokens.
     */
    constructor Init(id: string, description: string, language: Language,
                     tokens: Option<seq<PatternToken>>, regex: Option<Pattern>, getUnified: bool)
      requires tokens.Some? || regex.Some?
      ensures Built(this, id, description, language, tokens, regex, getUnified)
      ensures Config() == InitialConfiguration
    {
      this.id := id;
      this.description := description;
      this.language := language;
      this.getUnified := getUnified;
      if tokens.Some? {
        patternTokens := tokens;
        var unified, start, groups := ClassifyTokens(tokens.value);
        testUnification := unified;
        sentStart := start;
        groupsOrUnification := groups;
        this.regex := None;
      } else {
        this.regex := regex;
        patternTokens := None;
        groupsOrUnification := false;
        sentStart := false;
        testUnification := false;
      }
      suggestionMatches := [];
      suggestionMatchesOutMsg := [];
      antiPatterns := [];
      subId := None;
      startPositionCorrection := 0;
      endPositionCorrection := 0;
      suggestionsOutMsg := None;
      filter := None;
      filterArgs := None;
      message := None;
    }

    /** Whether any token takes part in unification; stops at the first one that does. */
    static method InitUnifier(tokens: seq<PatternToken>) returns (unified: bool)
      ensures unified <==> AnyUnified(tokens)
    {
      for i := 0 to |tokens|
        invariant forall j :: 0 <= j < i ==> !tokens[j].isUnified
      {
        if tokens[i].isUnified {
          return true;
        }
      }
      return false;
    }

    /**
     * The three flags of a token rule: unification, sentence start, and
     * "groups or unification", which is forced true by unification and
     * otherwise found by a scan that stops at the first AND-group.
     */
    static method ClassifyTokens(tokens: seq<PatternToken>)
      returns (testUnification: bool, sentStart: bool, groupsOrUnification: bool)
      ensures testUnification <==> AnyUnified(tokens)
      ensures sentStart <==> StartsSentence(tokens)
      ensures groupsOrUnification <==> testUnification || AnyAndGroup(tokens)
    {
      testUnification := InitUnifier(tokens);
      sentStart := |tokens| > 0 && tokens[0].isSentenceStart;
      if !testUnification {
        var found := false;
        var i := 0;
        while i < |tokens|
          invariant 0 <= i <= |tokens|
          invariant !found
          invariant forall j :: 0 <= j < i ==> !tokens[j].hasAndGroup
        {
          if tokens[i].hasAndGroup {
            found := true;
            break;
          }
          i := i + 1;
        }
        groupsOrUnification := found;
      } else {
        groupsOrUnification := true;
      }
    }

    // Identity and classification, read-only.

    function GetDescription(): (d: string)
      ensures d == description
    {
      description
    }

    function GetId(): (i: string)
      ensures i == id
    {
      id
    }

    function GetLanguage(): (l: Language)
      ensures l == language
    {
      language
    }

    /** The stored copy of the tokens; None for a regular-expression rule. */
    function GetPatternTokens(): (t: Option<seq<PatternToken>>)
      requires Valid()
      ensures t == patternTokens
      ensures t.None? <==> regex.Some?
    {
      patternTokens
    }

    function IsGetUnified(): (b: bool)
      ensures b == getUnified
    {
      getUnified
    }

    /** True exactly when some token of a token rule takes part in unification. */
    function IsTestUnification(): (b: bool)
      requires Valid()
      ensures b <==> patternTokens.Some? && AnyUnified(patternTokens.value)
    {
      testUnification
    }

    /** True exactly when some token of a token rule is unified or in an AND-group. */
    function IsGroupsOrUnification(): (b: bool)
      requires Valid()
      ensures b <==> patternTokens.Some? && (AnyUnified(patternTokens.value) || AnyAndGroup(patternTokens.value))
    {
      groupsOrUnification
    }

    /** True exactly when a token rule has a first token that must start the sentence. */
    function IsSentStart(): (b: bool)
      requires Valid()
      ensures b <==> patternTokens.Some? && |patternTokens.value| > 0 && patternTokens.value[0].isSentenceStart
    {
      sentStart
    }

    /** "ID" without a sub-id, "ID[SUB_ID]" with one; readable back when the id has no '['. */
    function GetFullId(): (r: string)
      reads this
      ensures subId.None? ==> r == id
      ensures subId.Some? ==> |r| == |id| + |subId.value| + 2 && r[..|id|] == id && r[|id|] == '[' &&
                              r[|id| + 1 .. |r| - 1] == subId.value && r[|r| - 1] == ']'
      ensures '[' !in id ==> SplitFullId(r) == Some((id, subId))
    {
      var r := FullId(id, subId);
      assert '[' !in id ==> SplitFullId(r) == Some((id, subId)) by {
        if '[' !in id {
          SplitFullIdInvertsFullId(id, subId);
        }
      }
      r
    }

    // Configuration getters.

    function GetSubId(): (r: Option<string>) reads this { subId }

    function GetStartPositionCorrection(): (r: Int32) reads this { startPositionCorrection }

    function GetEndPositionCorrection(): (r: Int32) reads this { endPositionCorrection }

    function GetSuggestionMatches(): (ms: seq<Match>)
      reads this
      ensures ms == Config().suggestionMatches
    {
      suggestionMatches
    }

    function GetSuggestionMatchesOutMsg(): (ms: seq<Match>)
      reads this
      ensures ms == Config().suggestionMatchesOutMsg
    {
      suggestionMatchesOutMsg
    }

    function GetSuggestionsOutMsg(): (m: Option<string>)
      reads this
      ensures m == Config().suggestionsOutMsg
    {
      suggestionsOutMsg
    }

    function GetMessage(): (r: Option<string>) reads this { message }

    function GetFilter(): (r: Option<RuleFilter>) reads this { filter }

    function GetFilterArguments(): (r: Option<string>) reads this { filterArgs }

    /** The anti-patterns added so far, in the order they were added. */
    function GetAntiPatterns(): (r: seq<DisambiguationPatternRule>) reads this { antiPatterns }

    // Setters: each changes its own field and nothing else.

    method SetStartPositionCorrection(correction: Int32)
      modifies this
      ensures Config() == old(Config()).(startPositionCorrection := correction)
      ensures GetStartPositionCorrection() == correction
    {
      startPositionCorrection := correction;
    }

    method SetEndPositionCorrection(correction: Int32)
      modifies this
      ensures Config() == old(Config()).(endPositionCorrection := correction)
      ensures GetEndPositionCorrection() == correction
    {
      endPositionCorrection := correction;
    }

    method SetSubId(s: Option<string>)
      modifies this
      ensures Config() == old(Config()).(subId := s)
      ensures GetSubId() == s
      ensures GetFullId() == FullId(id, s)
    {
      subId := s;
    }

    method SetMessage(m: Option<string>)
      modifies this
      ensures Config() == old(Config()).(message := m)
      ensures GetMessage() == m
    {
      message := m;
    }

    method SetFilter(f: Option<RuleFilter>)
      modifies this
      ensures Config() == old(Config()).(filter := f)
      ensures GetFilter() == f
    {
      filter := f;
    }

    method SetFilterArguments(args: Option<string>)
      modifies this
      ensures Config() == old(Config()).(filterArgs := args)
      ensures GetFilterArguments() == args
    {
      filterArgs := args;
    }

    // The append-only lists.

    /** Appends `m` to the suggestion matches used inside the message. */
    method AddSuggestionMatch(m: Match)
      modifies this
      ensures Config() == old(Config()).(suggestionMatches := old(suggestionMatches) + [m])
      ensures GetSuggestionMatches() == old(GetSuggestionMatches()) + [m]
    {
      suggestionMatches := suggestionMatches + [m];
    }

    /** Appends `m` to the suggestion matches used outside the message. */
    method AddSuggestionMatchOutMsg(m: Match)
      modifies this
      ensures Config() == old(Config()).(suggestionMatchesOutMsg := old(suggestionMatchesOutMsg) + [m])
      ensures GetSuggestionMatchesOutMsg() == old(GetSuggestionMatchesOutMsg()) + [m]
    {
      suggestionMatchesOutMsg := suggestionMatchesOutMsg + [m];
    }

    /** Adds the given anti-patterns after the ones already there; it never replaces them. */
    method SetAntiPatterns(l: seq<DisambiguationPatternRule>)
      modifies this
      ensures Config() == old(Config()).(antiPatterns := old(antiPatterns) + l)
      ensures GetAntiPatterns() == old(GetAntiPatterns()) + l
    {
      antiPatterns := antiPatterns + l;
    }
  }

  // ---------------------------------------------------------------------
  // Construction, including the failing cases
  // ---------------------------------------------------------------------

  /** What a successfully constructed rule holds, given the constructor's arguments. */
  ghost predicate Built(rule: AbstractPatternRule, id: string, description: string, language: Language,
                        tokens: Option<seq<PatternToken>>, regex: Option<Pattern>, getUnified: bool)
  {
    rule.Valid() &&
    rule.id == id && rule.description == description && rule.language == language &&
    rule.getUnified == getUnified &&
    rule.patternTokens == tokens &&
    rule.regex == (if tokens.Some? then None else regex)
  }

  /**
   * The shared constructor: fails with the first failing argument check,
   * otherwise builds the rule with the default configuration.
   */
  method NewRule(id: Option<string>, description: Option<string>, language: Option<Language>,
                 tokens: Option<seq<PatternToken>>, regex: Option<Pattern>, getUnified: bool)
    returns (r: Result<AbstractPatternRule, ConstructionError>)
    ensures r.Failure? <==> CheckArgs(id, description, language, tokens, regex).Some?
    ensures r.Failure? ==> CheckArgs(id, description, language, tokens, regex) == Some(r.error)
    ensures r.Success? ==> (fresh(r.value) &&
              Built(r.value, id.value, description.value, language.value, tokens, regex, getUnified) &&
              r.value.Config() == InitialConfiguration)
  {
    var err := CheckArgs(id, description, language, tokens, regex);
    if err.Some? {
      return Failure(err.value);
    }
    var rule := new AbstractPatternRule.Init(id.value, description.value, language.value, tokens, regex, getUnified);
    return Success(rule);
  }

  /** A rule that matches a whole sentence against a regular expression. */
  method NewRegexRule(id: Option<string>, description: Option<string>, language: Option<Language>,
                      regex: Option<Pattern>)
    returns (r: Result<AbstractPatternRule, ConstructionError>)
    ensures r.Failure? <==> CheckArgs(id, description, language, None, regex).Some?
    ensures r.Failure? ==> CheckArgs(id, description, language, None, regex) == Some(r.error)
    ensures r.Success? ==> (fresh(r.value) &&
              Built(r.value, id.value, description.value, language.value, None, regex, false) &&
              r.value.Config() == InitialConfiguration)
  {
    r := NewRule(id, description, language, None, regex, false);
  }

  /** A token rule. */
  method NewTokenRule(id: Option<string>, description: Option<string>, language: Option<Language>,
                      tokens: Option<seq<PatternToken>>, getUnified: bool)
    returns (r: Result<AbstractPatternRule, ConstructionError>)
    ensures r.Failure? <==> CheckArgs(id, description, language, tokens, None).Some?
    ensures r.Failure? ==> CheckArgs(id, description, language, tokens, None) == Some(r.error)
    ensures r.Success? ==> (fresh(r.value) &&
              Built(r.value, id.value, description.value, language.value, tokens, None, getUnified) &&
              r.value.Config() == InitialConfiguration)
  {
    r := NewRule(id, description, language, tokens, None, getUnified);
  }

  /** A token rule whose message is set as soon as it is built. */
  method NewTokenRuleWithMessage(id: Option<string>, description: Option<string>, language: Option<Language>,
                                 tokens: Option<seq<PatternToken>>, getUnified: bool, message: Option<string>)
    returns (r: Result<AbstractPatternRule, ConstructionError>)
    ensures r.Failure? <==> CheckArgs(id, description, language, tokens, None).Some?
    ensures r.Failure? ==> CheckArgs(id, description, language, tokens, None) == Some(r.error)
    ensures r.Success? ==> (fresh(r.value) &&
              Built(r.value, id.value, description.value, language.value, tokens, None, getUnified) &&
              r.value.Config() == InitialConfiguration.(message := message))
  {
    r := NewRule(id, description, language, tokens, None, getUnified);
    if r.Success? {
      r.value.message := message;
    }
  }

  // ---------------------------------------------------------------------
  // Consequences of the classification
  // ---------------------------------------------------------------------

  /**
   * Unification forces "groups or unification"; without unification an
   * AND-group alone sets it; a regular-expression rule and an empty token
   * rule have all three flags false.
   */
  lemma ClassificationConsequences(rule: AbstractPatternRule)
    requires rule.Valid()
    ensures rule.IsTestUnification() ==> rule.IsGroupsOrUnification()
    ensures rule.patternTokens.Some? && !AnyUnified(rule.patternTokens.value) ==>
              !rule.IsTestUnification() && (rule.IsGroupsOrUnification() <==> AnyAndGroup(rule.patternTokens.value))
    ensures rule.regex.Some? || rule.patternTokens == Some([]) ==>
              !rule.IsTestUnification() && !rule.IsGroupsOrUnification() && !rule.IsSentStart()
  {
  }
}
