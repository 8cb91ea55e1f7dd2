# AbstractPatternRule, modelled in Dafny

LanguageTool checks grammar and style with pattern rules. A pattern rule is
either a sequence of pattern tokens or one regular expression over the whole
sentence. `AbstractPatternRule` is the common base of pattern rules and
disambiguation rules. It holds the rule's identity: an id, an optional sub-id,
a description and a language. It holds the tokens or the regular expression,
three flags derived from the tokens when the rule is built, and the
configuration set up afterwards. The configuration covers position
corrections, the message, a filter and its arguments, and two ordered lists of
suggestion matches. The last part is an append-only list of anti-patterns.
The class does no matching of its own.

The model is one module, `PatternRules` (`abstract_pattern_rule.dfy`), plus
`Wrappers` (`wrappers.dfy`), which holds `Option` (Java's null) and `Result` (a
call that returns a value or throws).

- A pattern token is reduced to the three booleans the class reads:
  `isUnified`, `hasAndGroup` and `isSentenceStart`.
- `Language`, `Pattern`, `Match`, `RuleFilter` and `DisambiguationPatternRule`
  are abstract types. Only their identity matters here.
- The rule is the class `AbstractPatternRule`. Final Java fields are `const`,
  so Dafny itself guarantees that the identity, the tokens, the regular
  expression and the three flags never change after construction. The fields
  the setters overwrite and the three lists are `var`s. `Config()` bundles
  them, and every setter states its new `Config()` as the old one with one
  field replaced.
- `Valid()` is the object invariant. Exactly one of the tokens and the regular
  expression is present, and each flag equals its definition over the tokens
  (`AnyUnified`, `AnyAndGroup`, `StartsSentence`).
- A Dafny constructor cannot throw. So the three public Java constructors are
  methods returning `Result`. They share `NewRule`, which runs the argument
  checks (`CheckArgs`, with the exception kinds and messages of the source)
  and then the constructor `Init`, which stores and classifies.
- The getters are functions named after the source's getters. The setters'
  contracts are stated through them. The flag getters carry the flag's
  meaning as their contract.
- `SplitFullId` reads a full id back into id and sub-id. It is the partner of
  `getFullId`: for ids without `[`, the full id determines id and sub-id.

## Model

| member | source | states |
|---|---|---|
| `PatternRules.CheckArgs` | languagetool-core/src/main/java/org/languagetool/rules/patterns/AbstractPatternRule.java:86-92 | construction is rejected exactly when id, description or language is null or both tokens and regex are null; the first failing check, in source order, picks the exception and its message |
| `PatternRules.NewRule` | languagetool-core/src/main/java/org/languagetool/rules/patterns/AbstractPatternRule.java:85-117 | fails exactly when `CheckArgs` reports an error, with that error; otherwise a fresh valid rule holding the given identity and a copy of the tokens, with the regex dropped when tokens are given, and the default configuration |
| `PatternRules.NewRegexRule` | languagetool-core/src/main/java/org/languagetool/rules/patterns/AbstractPatternRule.java:72-74 | the regex constructor: no tokens and `getUnified` false; fails when the regex is null or an identity field is null |
| `PatternRules.NewTokenRule` | languagetool-core/src/main/java/org/languagetool/rules/patterns/AbstractPatternRule.java:81-83 | the token constructor: no regex; fails when the tokens are null or an identity field is null |
| `PatternRules.NewTokenRuleWithMessage` | languagetool-core/src/main/java/org/languagetool/rules/patterns/AbstractPatternRule.java:76-79 | like the token constructor, and the resulting rule's message is the given one while the rest of the configuration is the default |
| `PatternRules.AbstractPatternRule.Init` | languagetool-core/src/main/java/org/languagetool/rules/patterns/AbstractPatternRule.java:89-116 | after the checks: the rule is valid (exactly one of tokens and regex, flags as defined), the tokens are stored as given, the regex only when there are no tokens, and all configuration starts empty, null or zero |
| `PatternRules.AbstractPatternRule.InitUnifier` | languagetool-core/src/main/java/org/languagetool/rules/patterns/AbstractPatternRule.java:124-131 | returns true if and only if some token is unified |
| `PatternRules.AbstractPatternRule.ClassifyTokens` | languagetool-core/src/main/java/org/languagetool/rules/patterns/AbstractPatternRule.java:95-108 | `testUnification` iff some token is unified; `sentStart` iff there is a first token and it is a sentence start; `groupsOrUnification` iff unification holds or some token has an AND-group |
| `PatternRules.AbstractPatternRule.IsTestUnification` | languagetool-core/src/main/java/org/languagetool/rules/patterns/AbstractPatternRule.java:224-226 | for a valid rule, true iff it is a token rule with some unified token (false for a regex rule) |
| `PatternRules.AbstractPatternRule.IsGroupsOrUnification` | languagetool-core/src/main/java/org/languagetool/rules/patterns/AbstractPatternRule.java:203-205 | for a valid rule, true iff it is a token rule with some unified token or some AND-grouped token |
| `PatternRules.AbstractPatternRule.IsSentStart` | languagetool-core/src/main/java/org/languagetool/rules/patterns/AbstractPatternRule.java:217-219 | for a valid rule, true iff it is a token rule whose token list is non-empty and starts with a sentence-start token |
| `PatternRules.ClassificationConsequences` | languagetool-core/src/main/java/org/languagetool/rules/patterns/AbstractPatternRule.java:95-115 | unification forces "groups or unification"; without unification that flag is set exactly by an AND-group; a regex rule and an empty token rule have all three flags false |
| `PatternRules.FullId` | languagetool-core/src/main/java/org/languagetool/rules/patterns/AbstractPatternRule.java:184-190 | without a sub-id the full id is the id; with one it is the id, `[`, the sub-id and `]` |
| `PatternRules.AbstractPatternRule.GetFullId` | languagetool-core/src/main/java/org/languagetool/rules/patterns/AbstractPatternRule.java:180-190 | the rule's full id is its id when the sub-id is null, starts with the id otherwise, and reads back to the rule's id and sub-id when the id has no `[` |
| `PatternRules.SplitFullId` | languagetool-core/src/main/java/org/languagetool/rules/patterns/AbstractPatternRule.java:184-190 | any split it returns has an id without `[` and rebuilds, through `FullId`, the exact string it was given |
| `PatternRules.SplitFullIdInvertsFullId` | languagetool-core/src/main/java/org/languagetool/rules/patterns/AbstractPatternRule.java:184-190 | for an id without `[`, splitting the full id gives back the id and the sub-id |
| `PatternRules.FullIdInjective` | languagetool-core/src/main/java/org/languagetool/rules/patterns/AbstractPatternRule.java:180-190 | for ids without `[`, two rules share a full id only if they share both id and sub-id, which is what lets rules of a group be told apart |
| `PatternRules.FullIdCollision` | languagetool-core/src/main/java/org/languagetool/rules/patterns/AbstractPatternRule.java:184-190 | without that restriction the format is ambiguous: id `A[B]` with no sub-id and id `A` with sub-id `B` give the same full id |
| `PatternRules.AbstractPatternRule.GetDescription` | languagetool-core/src/main/java/org/languagetool/rules/patterns/AbstractPatternRule.java:139-141 | returns the description given at construction |
| `PatternRules.AbstractPatternRule.GetId` | languagetool-core/src/main/java/org/languagetool/rules/patterns/AbstractPatternRule.java:144-146 | returns the id given at construction |
| `PatternRules.AbstractPatternRule.GetLanguage` | languagetool-core/src/main/java/org/languagetool/rules/patterns/AbstractPatternRule.java:160-162 | returns the language given at construction |
| `PatternRules.AbstractPatternRule.IsGetUnified` | languagetool-core/src/main/java/org/languagetool/rules/patterns/AbstractPatternRule.java:210-212 | returns the `getUnified` flag given at construction (false for a rule built by `NewRegexRule`) |
| `PatternRules.AbstractPatternRule.GetPatternTokens` | languagetool-core/src/main/java/org/languagetool/rules/patterns/AbstractPatternRule.java:231-233 | returns the stored copy of the tokens, which is absent exactly when the rule is a regex rule |
| `PatternRules.AbstractPatternRule.GetSuggestionMatches` | languagetool-core/src/main/java/org/languagetool/rules/patterns/AbstractPatternRule.java:245-247 | returns the in-message suggestion matches, in the order they were added |
| `PatternRules.AbstractPatternRule.GetSuggestionMatchesOutMsg` | languagetool-core/src/main/java/org/languagetool/rules/patterns/AbstractPatternRule.java:249-251 | returns the out-of-message suggestion matches, in the order they were added |
| `PatternRules.AbstractPatternRule.GetSuggestionsOutMsg` | languagetool-core/src/main/java/org/languagetool/rules/patterns/AbstractPatternRule.java:253-256 | returns the stored out-of-message suggestions text |
| `PatternRules.AbstractPatternRule.SetStartPositionCorrection` | languagetool-core/src/main/java/org/languagetool/rules/patterns/AbstractPatternRule.java:164-170 | only the start correction changes, and its getter returns the value set |
| `PatternRules.AbstractPatternRule.SetEndPositionCorrection` | languagetool-core/src/main/java/org/languagetool/rules/patterns/AbstractPatternRule.java:172-178 | only the end correction changes, and its getter returns the value set |
| `PatternRules.AbstractPatternRule.SetSubId` | languagetool-core/src/main/java/org/languagetool/rules/patterns/AbstractPatternRule.java:192-198 | only the sub-id changes, its getter returns the value set, and the full id is rebuilt from it |
| `PatternRules.AbstractPatternRule.SetMessage` | languagetool-core/src/main/java/org/languagetool/rules/patterns/AbstractPatternRule.java:261-270 | only the message changes, and its getter returns the value set |
| `PatternRules.AbstractPatternRule.SetFilter` | languagetool-core/src/main/java/org/languagetool/rules/patterns/AbstractPatternRule.java:273-281 | only the filter changes, and its getter returns the value set |
| `PatternRules.AbstractPatternRule.SetFilterArguments` | languagetool-core/src/main/java/org/languagetool/rules/patterns/AbstractPatternRule.java:284-292 | only the filter arguments change, and their getter returns the value set |
| `PatternRules.AbstractPatternRule.AddSuggestionMatch` | languagetool-core/src/main/java/org/languagetool/rules/patterns/AbstractPatternRule.java:236-238 | appends the match at the end of the in-message list, keeping earlier entries in order; the out-of-message list and everything else are unchanged |
| `PatternRules.AbstractPatternRule.AddSuggestionMatchOutMsg` | languagetool-core/src/main/java/org/languagetool/rules/patterns/AbstractPatternRule.java:241-243 | appends the match at the end of the out-of-message list; the in-message list and everything else are unchanged |
| `PatternRules.AbstractPatternRule.SetAntiPatterns` | languagetool-core/src/main/java/org/languagetool/rules/patterns/AbstractPatternRule.java:301-311 | appends the given anti-patterns after the existing ones instead of replacing them; `GetAntiPatterns` then returns old list followed by the new one; nothing else changes |

## Left out

- `match` returns null in this class. Token matching, unification checks, anti-pattern suppression and message rendering live in subclasses and other classes, which are not part of this model.
- `supportsLanguage` delegates to `Language.equalsConsiderVariantsIfSpecified`, whose variant logic is not part of this model. `Language` is an abstract type.
- `toString` is debug output and is not modelled. `reset` does nothing and is not modelled.
- `getAntiPatterns` returns an unmodifiable view in Java. Here it returns the sequence as a value, so the exception thrown when a caller mutates the view has no counterpart.
- Aliasing is not modelled. `getPatternTokens`, `getSuggestionMatches` and `getSuggestionMatchesOutMsg` return the rule's own mutable lists in Java. Here they return values, so a caller cannot change the rule through them.
- `setAntiPatterns` with a null list throws a NullPointerException in Java. Here the list parameter cannot be null. A null `Match` passed to `addSuggestionMatch` is stored like any other element in Java; here a `Match` is never null.
- NewRule, NewTokenRule, NewTokenRuleWithMessage and SetAntiPatterns: the lists here hold no null elements. In Java a null token is copied into the rule, and the only place the constructor can then throw is the unification scan (AbstractPatternRule.java:126). It throws a NullPointerException exactly when a null comes before the first unified token, or when the list has any null and no token is unified. Otherwise, when a unified token comes before every null, the list is accepted silently. `setAntiPatterns` stores null anti-patterns as they come. Neither behaviour is modelled.
- `suggestionsOutMsg` has a getter but no setter in this class. Subclasses assign it directly; here it only has its initial value, null. The Java getter is annotated `@NotNull`, but in this class on its own it returns that null field, so the annotation does not hold here and the model returns an `Option`.
- Fields inherited from the `Rule` superclass, and concurrency (the class has no locking), are not modelled.
