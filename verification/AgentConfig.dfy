/**
 * An agent's configuration and its normalization (core/internal/agent/service.go).  Identifiers and scopes are numbers
 * in the order of their text; handle and endpoint syntax are parameters.
 */
module AgentConfig {
  import opened Collections
  import opened Pricing

  type Id = int

  /** `C` is how a cost limit is held: as text, or as a whole number of 1e-8 USD.  `N` is how a number is given. */
  datatype Settings<C, N> = Settings(
    recipe: string, description: string, scopes: seq<int>, connection: Option<Id>, provider: string, model: string,
    endpoint: string, shared: bool, daily: C, monthly: C, maxOutput: N, maxIterations: N, maxDepth: N, perChat: N,
    rate: int, providerRate: int, timeout: int)

  datatype Config<C, N> = Config(settings: Settings<C, N>, chats: seq<Id>)

  /** What a caller sends, what a version records, and what a table row holds. */
  type RawConfig = Config<Option<string>, Option<int>>
  type VersionConfig = Config<Option<string>, int>
  type StoredSettings = Settings<Option<nat>, int>
  type StoredConfig = Config<Option<nat>, int>

  datatype Profile = Profile(name: string, handle: string, kind: string)

  datatype Checks = Checks(handleOk: string -> bool, endpointOk: string -> bool, validScopes: set<int>)

  // ---------- trimming ----------

  predicate Trimmed(s: string) { s == "" || (!IsSpace(s[0]) && !IsSpace(s[|s| - 1])) }

  lemma {:induction false} TrimLeftStarts(s: string)
    ensures var t := TrimLeft(s); t == "" || !IsSpace(t[0])
  {
    if s != "" && IsSpace(s[0]) { TrimLeftStarts(s[1..]); }
  }

  lemma {:induction false} TrimRightEnds(s: string)
    ensures var t := TrimRight(s); (t == "" || !IsSpace(t[|t| - 1])) && t <= s
  {
    if s != "" && IsSpace(s[|s| - 1]) { TrimRightEnds(s[..|s| - 1]); }
  }

  lemma TrimSpaceTrims(s: string)
    ensures Trimmed(TrimSpace(s)) && TrimSpace(TrimSpace(s)) == TrimSpace(s)
  {
    TrimLeftStarts(s);
    TrimRightEnds(TrimLeft(s));
  }

  lemma {:induction false} LowerIs(s: string)
    ensures |Lower(s)| == |s| && forall i :: 0 <= i < |s| ==> Lower(s)[i] == LowerChar(s[i])
  {
    if s != "" { LowerIs(s[1..]); }
  }

  lemma LowerCharKeeps(c: char)
    ensures LowerChar(LowerChar(c)) == LowerChar(c) && (!IsSpace(c) ==> !IsSpace(LowerChar(c)))
  {
  }

  lemma LowerIsTrimmed(s: string)
    requires Trimmed(s)
    ensures Trimmed(Lower(s)) && Lower(Lower(s)) == Lower(s)
  {
    LowerIs(s);
    forall i | 0 <= i < |s| ensures LowerChar(Lower(s)[i]) == Lower(s)[i] { LowerCharKeeps(s[i]); }
    LowerKeeps(Lower(s));
    if s != "" {
      LowerCharKeeps(s[0]);
      LowerCharKeeps(s[|s| - 1]);
    }
  }

  lemma LowerKeepsTrimmed(s: string)
    requires Trimmed(s)
    ensures Trimmed(Lower(s)) && Lower(TrimSpace(Lower(s))) == Lower(s)
  {
    LowerIsTrimmed(s);
    assert TrimSpace(Lower(s)) == Lower(s);
  }

  function LowerTrim(s: string): string { Lower(TrimSpace(s)) }

  lemma LowerTrimTwice(s: string)
    ensures LowerTrim(LowerTrim(s)) == LowerTrim(s)
  {
    TrimSpaceTrims(s);
    LowerKeepsTrimmed(TrimSpace(s));
  }

  // ---------- lists without duplicates ----------

  function SortedSet(s: seq<int>): seq<int> {
    if s == [] then [] else InsertSorted(SortedSet(s[..|s| - 1]), s[|s| - 1])
  }

  lemma {:induction false} SortedSetIs(s: seq<int>)
    ensures Strict(SortedSet(s)) && forall x :: x in SortedSet(s) <==> x in s
  {
    if s != [] {
      SortedSetIs(s[..|s| - 1]);
      InsertStrict(SortedSet(s[..|s| - 1]), s[|s| - 1]);
      InsertMembers(SortedSet(s[..|s| - 1]), s[|s| - 1]);
      assert s == s[..|s| - 1] + [s[|s| - 1]];
    }
  }

  lemma {:induction false} InsertLast(s: seq<int>, x: int)
    requires Strict(s) && forall y :: y in s ==> y < x
    ensures InsertSorted(s, x) == s + [x]
  {
    if s != [] {
      StrictTail(s);
      assert s[0] in s && forall y :: y in s[1..] ==> y in s;
      InsertLast(s[1..], x);
      assert s == [s[0]] + s[1..];
    }
  }

  lemma {:induction false} SortedSetKeeps(s: seq<int>)
    requires Strict(s)
    ensures SortedSet(s) == s
  {
    if s != [] {
      var init := s[..|s| - 1];
      assert Strict(init) && s == init + [s[|s| - 1]];
      SortedSetKeeps(init);
      forall y | y in init ensures y < s[|s| - 1] { var i :| 0 <= i < |init| && init[i] == y; }
      InsertLast(init, s[|s| - 1]);
    }
  }

  /** One element more. */
  lemma SortedSetSnoc(s: seq<int>, x: int)
    ensures SortedSet(s + [x]) == InsertSorted(SortedSet(s), x)
    ensures x in SortedSet(s) ==> SortedSet(s + [x]) == SortedSet(s)
    ensures forall y :: y in SortedSet(s + [x]) <==> y == x || y in SortedSet(s)
  {
    assert (s + [x])[..|s|] == s;
    SortedSetIs(s);
    InsertMembers(SortedSet(s), x);
    if x in SortedSet(s) { InsertPresent(SortedSet(s), x); }
  }

  lemma {:induction false} InsertPresent(s: seq<int>, x: int)
    requires Strict(s) && x in s
    ensures InsertSorted(s, x) == s
  {
    if s[0] < x {
      StrictTail(s);
      InsertPresent(s[1..], x);
      assert s == [s[0]] + s[1..];
    }
  }

  /** The loop with its seen set, and the sort. */
  method NormalizeScopes(c: Checks, input: seq<int>) returns (result: Option<seq<int>>)
    ensures result == if forall i :: 0 <= i < |input| ==> input[i] in c.validScopes then Some(SortedSet(input)) else None
    ensures result.Some? ==> Strict(result.value) && forall x :: x in result.value <==> x in input
  {
    var seen: set<int>, sorted := {}, [];
    for i := 0 to |input|
      invariant forall k :: 0 <= k < i ==> input[k] in c.validScopes
      invariant sorted == SortedSet(input[..i]) && forall x :: x in seen <==> x in sorted
    {
      var scope := input[i];
      if scope !in c.validScopes {
        return None;
      }
      assert input[..i + 1] == input[..i] + [scope];
      SortedSetSnoc(input[..i], scope);
      if scope in seen {
        continue;
      }
      seen := seen + {scope};
      sorted := InsertSorted(sorted, scope);
    }
    assert input[..|input|] == input;
    SortedSetIs(input);
    result := Some(sorted);
  }

  // ---------- normalization ----------

  function NormalProfile(c: Checks, p: Profile): Option<Profile> {
    var n := Profile(TrimSpace(p.name), LowerTrim(p.handle), TrimSpace(p.kind));
    if 1 <= |n.name| <= 120 && c.handleOk(n.handle) && (n.kind == "builtin" || n.kind == "external") then Some(n) else None
  }

  predicate CostOk(cost: Option<string>) { cost.Some? && cost.value != "" ==> |cost.value| <= 29 && CostPattern(cost.value) }

  function TrimCost(cost: Option<string>): Option<string> {
    if cost.None? then None else Some(TrimSpace(cost.value))
  }

  function Given(value: Option<int>, otherwise: int): int { if value.Some? then value.value else otherwise }

  function NonZero(value: int, otherwise: int): int { if value == 0 then otherwise else value }

  function Recipe(recipe: string): string { if LowerTrim(recipe) == "" then "custom" else LowerTrim(recipe) }

  function Filled(raw: RawConfig): VersionConfig {
    var s := raw.settings;
    Config(Settings(Recipe(s.recipe), TrimSpace(s.description), SortedSet(s.scopes), s.connection, TrimSpace(s.provider), TrimSpace(s.model),
                    TrimSpace(s.endpoint), s.shared, TrimCost(s.daily), TrimCost(s.monthly), Given(s.maxOutput, 2048), Given(s.maxIterations, 8),
                    Given(s.maxDepth, 3), Given(s.perChat, 1), NonZero(s.rate, 60), NonZero(s.providerRate, 300), NonZero(s.timeout, 600)),
           SortedSet(raw.chats))
  }

  /** `len` of a string in Go: the number of bytes of its UTF-8 form. */
  function Utf8Length(s: string): nat {
    if s == "" then 0
    else Utf8Length(s[1..]) + if s[0] < '\U{80}' then 1 else if s[0] < '\U{800}' then 2 else if s[0] < '\U{10000}' then 3 else 4
  }

  lemma {:induction false} AsciiLength(s: string)
    requires forall i :: 0 <= i < |s| ==> s[i] < '\U{80}'
    ensures Utf8Length(s) == |s|
  {
    if s != "" { AsciiLength(s[1..]); }
  }

  /** Descriptions are counted in characters, providers and models in bytes. */
  predicate RangesOk(s: Settings<Option<string>, int>) {
    && |s.description| <= 2000 && Utf8Length(s.provider) <= 100 && Utf8Length(s.model) <= 200
    && 1 <= s.rate <= 100_000 && 1 <= s.providerRate <= 100_000 && 30 <= s.timeout <= 3600
    && 1 <= s.maxOutput <= 1_000_000 && 0 <= s.maxIterations <= 64 && 0 <= s.maxDepth <= 16 && 1 <= s.perChat <= 32
  }

  predicate ProviderOk(c: Checks, kind: string, s: Settings<Option<string>, int>) {
    if kind == "builtin" then
      || s.connection.Some?
      || ((s.provider == "openai" || s.provider == "anthropic") && s.endpoint == "")
      || (s.provider == "openai-compatible" && c.endpointOk(s.endpoint))
    else s.connection.None? && c.endpointOk(s.endpoint)
  }

  predicate RecipeOk(kind: string, config: VersionConfig) {
    || config.settings.recipe == "custom"
    || ((config.settings.recipe == "summarizer" || config.settings.recipe == "qa" || config.settings.recipe == "onboarding")
        && kind == "builtin" && config.chats != [])
  }

  predicate Acceptable(c: Checks, kind: string, config: VersionConfig) {
    && CostOk(config.settings.daily) && CostOk(config.settings.monthly) && RangesOk(config.settings)
    && ProviderOk(c, kind, config.settings) && RecipeOk(kind, config)
    && (forall i :: 0 <= i < |config.settings.scopes| ==> config.settings.scopes[i] in c.validScopes)
  }

  function NormalConfig(c: Checks, kind: string, raw: RawConfig): Option<VersionConfig> {
    if |raw.chats| <= 100 && Acceptable(c, kind, Filled(raw)) then Some(Filled(raw)) else None
  }

  /** A recorded configuration as input. */
  function AsRaw(v: VersionConfig): RawConfig {
    var s := v.settings;
    Config(Settings(s.recipe, s.description, s.scopes, s.connection, s.provider, s.model, s.endpoint, s.shared, s.daily, s.monthly,
                    Some(s.maxOutput), Some(s.maxIterations), Some(s.maxDepth), Some(s.perChat), s.rate, s.providerRate, s.timeout), v.chats)
  }

  /** What filling leaves alone. */
  predicate IsFilled(v: VersionConfig) {
    var s := v.settings;
    && Recipe(s.recipe) == s.recipe && TrimSpace(s.description) == s.description && Strict(s.scopes) && TrimSpace(s.provider) == s.provider
    && TrimSpace(s.model) == s.model && TrimSpace(s.endpoint) == s.endpoint && TrimCost(s.daily) == s.daily && TrimCost(s.monthly) == s.monthly
    && s.rate != 0 && s.providerRate != 0 && s.timeout != 0 && Strict(v.chats) && |v.chats| <= 100
  }

  lemma {:induction false} SortedSetIsShort(s: seq<int>)
    ensures |SortedSet(s)| <= |s|
  {
    if s != [] {
      SortedSetIsShort(s[..|s| - 1]);
      InsertIsShort(SortedSet(s[..|s| - 1]), s[|s| - 1]);
    }
  }

  lemma {:induction false} InsertIsShort(s: seq<int>, x: int)
    ensures |InsertSorted(s, x)| <= |s| + 1
  {
    if s != [] { InsertIsShort(s[1..], x); }
  }

  lemma RecipeTwice(recipe: string)
    ensures Recipe(Recipe(recipe)) == Recipe(recipe)
  {
    LowerTrimTwice(recipe);
    LowerTrimTwice("custom");
    if LowerTrim(recipe) == "" { CustomStays("custom"); }
  }

  lemma CustomStays(s: string)
    requires s == "custom"
    ensures LowerTrim(s) == s
  {
    CanonicalStays(s);
  }

  lemma FilledIsFilled(raw: RawConfig)
    requires |raw.chats| <= 100
    ensures IsFilled(Filled(raw))
  {
    var s := raw.settings;
    RecipeTwice(s.recipe);
    TrimSpaceTrims(s.description);
    TrimSpaceTrims(s.provider);
    TrimSpaceTrims(s.model);
    TrimSpaceTrims(s.endpoint);
    if s.daily.Some? { TrimSpaceTrims(s.daily.value); }
    if s.monthly.Some? { TrimSpaceTrims(s.monthly.value); }
    SortedSetIs(s.scopes);
    SortedSetIs(raw.chats);
    SortedSetIsShort(raw.chats);
  }

  lemma FilledStays(v: VersionConfig)
    requires IsFilled(v)
    ensures Filled(AsRaw(v)) == v
  {
    SortedSetKeeps(v.settings.scopes);
    SortedSetKeeps(v.chats);
  }

  /** Normalization is idempotent: what it accepts, it accepts again and leaves as it is. */
  lemma NormalizationIsIdempotent(c: Checks, kind: string, raw: RawConfig)
    ensures var n := NormalConfig(c, kind, raw); n.Some? ==> IsFilled(n.value) && NormalConfig(c, kind, AsRaw(n.value)) == n
  {
    if |raw.chats| <= 100 {
      FilledIsFilled(raw);
      FilledStays(Filled(raw));
    }
  }

  lemma ProfileIsIdempotent(c: Checks, p: Profile)
    ensures var n := NormalProfile(c, p); n.Some? ==> NormalProfile(c, n.value) == n
  {
    TrimSpaceTrims(p.name);
    TrimSpaceTrims(p.kind);
    LowerTrimTwice(p.handle);
  }

  // ---------- table rows ----------

  function WithCosts<C, D>(s: Settings<C, int>, daily: D, monthly: D): Settings<D, int> {
    Settings(s.recipe, s.description, s.scopes, s.connection, s.provider, s.model, s.endpoint, s.shared, daily, monthly,
             s.maxOutput, s.maxIterations, s.maxDepth, s.perChat, s.rate, s.providerRate, s.timeout)
  }

  /** The largest amount of a `numeric(20,8)` column. */
  const MAX_UNITS: int := 100_000_000_000_000_000_000

  /** `NULLIF(text, '')::numeric`. */
  function Amount(cost: Option<string>): Option<nat>
    requires CostOk(cost)
  {
    if cost.None? || cost.value == "" then None else Some(CostUnits(cost.value))
  }

  predicate Fits(cost: Option<string>)
    requires CostOk(cost)
  {
    Amount(cost).Some? ==> Amount(cost).value < MAX_UNITS
  }

  predicate Storable(v: VersionConfig) {
    && CostOk(v.settings.daily) && CostOk(v.settings.monthly) && Fits(v.settings.daily) && Fits(v.settings.monthly)
  }

  function Stored(v: VersionConfig): StoredConfig
    requires Storable(v)
  {
    Config(WithCosts(v.settings, Amount(v.settings.daily), Amount(v.settings.monthly)), v.chats)
  }

  /** `numeric::text`. */
  function CostText(amount: Option<nat>): Option<string> {
    if amount.None? then None else Some(FormatUnits(amount.value))
  }

  function Texts(row: StoredConfig): VersionConfig {
    Config(WithCosts(row.settings, CostText(row.settings.daily), CostText(row.settings.monthly)), row.chats)
  }

  predicate RowFits(row: StoredConfig) {
    && (row.settings.daily.Some? ==> row.settings.daily.value < MAX_UNITS)
    && (row.settings.monthly.Some? ==> row.settings.monthly.value < MAX_UNITS)
  }

  lemma {:induction false} DecimalIsShort(n: nat, w: nat)
    requires n < Pow10(w) && w >= 1
    ensures |Decimal(n)| <= w
  {
    if n >= 10 { DecimalIsShort(n / 10, w - 1); }
  }

  lemma Pow12()
    ensures Pow10(12) == 1_000_000_000_000
  {
    Pow8();
    assert Pow10(12) == 10 * (10 * (10 * (10 * Pow10(8))));
  }

  lemma AmountIsTrimmed(units: nat)
    ensures TrimSpace(FormatUnits(units)) == FormatUnits(units)
  {
    FormatIs(units);
    DecimalReads(units / 100_000_000);
    Pow8();
    PaddedReads(units % 100_000_000, 8);
    var text := FormatUnits(units);
    assert text[0] == Decimal(units / 100_000_000)[0] && text[|text| - 1] == Padded(units % 100_000_000, 8)[7];
  }

  lemma AmountIsShort(units: nat)
    requires units < MAX_UNITS
    ensures |FormatUnits(units)| <= 29
  {
    FormatIs(units);
    Pow12();
    DecimalIsShort(units / 100_000_000, 12);
    Pow8();
    PaddedReads(units % 100_000_000, 8);
  }

  /** What the database prints for an amount is accepted as a cost limit and read back as the same amount. */
  lemma PrintedAmountIsAccepted(amount: Option<nat>)
    requires amount.Some? ==> amount.value < MAX_UNITS
    ensures var text := CostText(amount); CostOk(text) && TrimCost(text) == text && Amount(text) == amount
  {
    if amount.Some? {
      PrintedCostReadsBack(amount.value);
      AmountIsShort(amount.value);
      AmountIsTrimmed(amount.value);
    }
  }

  /** Reading a row back gives the configuration it was stored from, with its cost limits as the database prints them. */
  lemma StoredReadsBack(row: StoredConfig)
    requires RowFits(row)
    ensures Storable(Texts(row)) && Stored(Texts(row)) == row
  {
    PrintedAmountIsAccepted(row.settings.daily);
    PrintedAmountIsAccepted(row.settings.monthly);
  }

  /** Other cost limits do not change what else is checked. */
  lemma CostsAreSeparate(c: Checks, kind: string, v: VersionConfig, daily: Option<string>, monthly: Option<string>)
    requires Acceptable(c, kind, v) && IsFilled(v)
    requires CostOk(daily) && CostOk(monthly) && TrimCost(daily) == daily && TrimCost(monthly) == monthly
    ensures var w := Config(WithCosts(v.settings, daily, monthly), v.chats);
            Acceptable(c, kind, w) && IsFilled(w)
  {
    var w := Config(WithCosts(v.settings, daily, monthly), v.chats);
    assert RangesOk(w.settings) && ProviderOk(c, kind, w.settings) && RecipeOk(kind, w);
  }

  lemma NormalIsAcceptable(c: Checks, kind: string, v: VersionConfig)
    requires IsFilled(v)
    ensures NormalConfig(c, kind, AsRaw(v)) == Some(v) <==> Acceptable(c, kind, v)
  {
    FilledStays(v);
  }

  /** A normalized configuration that went through a row is still normalized. */
  lemma RowStaysNormal(c: Checks, kind: string, v: VersionConfig)
    requires Storable(v) && NormalConfig(c, kind, AsRaw(v)) == Some(v) && IsFilled(v)
    ensures var w := Texts(Stored(v));
            NormalConfig(c, kind, AsRaw(w)) == Some(w) && IsFilled(w) && Storable(w) && Stored(w) == Stored(v)
  {
    var w := Texts(Stored(v));
    StoredReadsBack(Stored(v));
    PrintedAmountIsAccepted(Amount(v.settings.daily));
    PrintedAmountIsAccepted(Amount(v.settings.monthly));
    NormalIsAcceptable(c, kind, v);
    CostsAreSeparate(c, kind, v, w.settings.daily, w.settings.monthly);
    NormalIsAcceptable(c, kind, w);
  }
}
