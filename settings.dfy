/**
 * Configuration: the harm categories and block thresholds of the safety settings,
 * the generation parameters and their widget bounds, the session defaults, and the
 * choice of a model from the listing the client library returns.
 */
module Settings {
  import opened Wrappers

  /** The four harm categories the session configures. */
  datatype HarmCategory = Harassment | HateSpeech | SexuallyExplicit | DangerousContent

  /** The members of the block-threshold enumeration, in declaration order. */
  datatype Threshold = Unspecified | BlockLowAndAbove | BlockMediumAndAbove | BlockOnlyHigh | BlockNone

  function CategoryName(c: HarmCategory): string {
    match c
    case Harassment => "HARM_CATEGORY_HARASSMENT"
    case HateSpeech => "HARM_CATEGORY_HATE_SPEECH"
    case SexuallyExplicit => "HARM_CATEGORY_SEXUALLY_EXPLICIT"
    case DangerousContent => "HARM_CATEGORY_DANGEROUS_CONTENT"
  }

  function ThresholdName(t: Threshold): string {
    match t
    case Unspecified => "HARM_BLOCK_THRESHOLD_UNSPECIFIED"
    case BlockLowAndAbove => "BLOCK_LOW_AND_ABOVE"
    case BlockMediumAndAbove => "BLOCK_MEDIUM_AND_ABOVE"
    case BlockOnlyHigh => "BLOCK_ONLY_HIGH"
    case BlockNone => "BLOCK_NONE"
  }

  /** `[t.name for t in HarmBlockThreshold]`: the options offered for every category. */
  const ThresholdOptions: seq<string> := [
    ThresholdName(Unspecified), ThresholdName(BlockLowAndAbove), ThresholdName(BlockMediumAndAbove),
    ThresholdName(BlockOnlyHigh), ThresholdName(BlockNone)]

  /** `HarmBlockThreshold[name]`, which raises for a name that is not a member. */
  function ThresholdByName(name: string): (r: Option<Threshold>)
    ensures r.Some? <==> name in ThresholdOptions
    ensures r.Some? ==> ThresholdName(r.value) == name
  {
    if name == ThresholdName(Unspecified) then Some(Unspecified)
    else if name == ThresholdName(BlockLowAndAbove) then Some(BlockLowAndAbove)
    else if name == ThresholdName(BlockMediumAndAbove) then Some(BlockMediumAndAbove)
    else if name == ThresholdName(BlockOnlyHigh) then Some(BlockOnlyHigh)
    else if name == ThresholdName(BlockNone) then Some(BlockNone)
    else None
  }

  /** Looking a threshold up by its own name gives it back. */
  lemma ThresholdNameRoundTrip(t: Threshold)
    ensures ThresholdName(t) in ThresholdOptions
    ensures ThresholdByName(ThresholdName(t)) == Some(t)
  {
  }

  /** `options.index(x)`: the first position of `x`, or `None` where Python raises. */
  function IndexOf(options: seq<string>, x: string): (r: Option<nat>)
    ensures r.None? <==> x !in options
    ensures r.Some? ==> r.value < |options| && options[r.value] == x &&
                        forall j :: 0 <= j < r.value ==> options[j] != x
  {
    if options == [] then None
    else if options[0] == x then Some(0)
    else
      var rest := IndexOf(options[1..], x);
      assert forall j :: 1 <= j < |options| ==> options[j] == options[1..][j - 1];
      if rest.Some? then Some(rest.value + 1) else None
  }

  /** The option the threshold select box shows for a category before the user picks one. */
  function ShownOption(current: Threshold): (name: string)
    ensures ThresholdByName(name) == Some(current)
  {
    ThresholdNameRoundTrip(current);
    ThresholdOptions[IndexOf(ThresholdOptions, ThresholdName(current)).value]
  }

  /**
   * One pass of the safety loop for one category: the name the select box returns (the
   * picked threshold's name, or the shown default) mapped back through `HarmBlockThreshold[...]`.
   */
  function SelectedThreshold(current: Threshold, pick: Option<Threshold>): (t: Threshold)
    ensures t == if pick.Some? then pick.value else current
  {
    match pick
    case Some(picked) =>
      ThresholdNameRoundTrip(picked);
      ThresholdByName(ThresholdName(picked)).value
    case None => ThresholdByName(ShownOption(current)).value
  }

  const AllCategories: set<HarmCategory> := {Harassment, HateSpeech, SexuallyExplicit, DangerousContent}

  /** The position of a category in the default settings, which fixes the dict's iteration order. */
  function CategoryPosition(c: HarmCategory): nat {
    match c
    case Harassment => 0
    case HateSpeech => 1
    case SexuallyExplicit => 2
    case DangerousContent => 3
  }

  const CategoryCount: nat := 4

  /** The category at position `k` of the iteration order. */
  function CategoryAt(k: nat): (c: HarmCategory)
    requires k < CategoryCount
    ensures CategoryPosition(c) == k
  {
    if k == 0 then Harassment else if k == 1 then HateSpeech
    else if k == 2 then SexuallyExplicit else DangerousContent
  }

  /** `{k.name: v.name for k, v in safety_settings.items()}`, the form stored in the log. */
  function SafetyLog(settings: map<HarmCategory, Threshold>): map<string, string> {
    map c | c in settings :: CategoryName(c) := ThresholdName(settings[c])
  }

  /** Distinct categories have distinct names. */
  lemma CategoryNameInjective(c: HarmCategory, d: HarmCategory)
    ensures CategoryName(c) == CategoryName(d) ==> c == d
  {
    if c != d {
      var i := if {c, d} == {SexuallyExplicit, DangerousContent} then 14 else 15;
      assert CategoryName(c)[i] != CategoryName(d)[i] || |CategoryName(c)| != |CategoryName(d)|;
    }
  }

  lemma SafetyLogAt(settings: map<HarmCategory, Threshold>, c: HarmCategory)
    requires c in settings
    ensures CategoryName(c) in SafetyLog(settings)
    ensures SafetyLog(settings)[CategoryName(c)] == ThresholdName(settings[c])
  {
    forall d | d in settings ensures CategoryName(d) == CategoryName(c) ==> d == c {
      CategoryNameInjective(d, c);
    }
  }

  /** The logged form names every configured category, and each threshold can be read back. */
  lemma SafetyLogRoundTrip(settings: map<HarmCategory, Threshold>)
    ensures SafetyLog(settings).Keys == set c | c in settings :: CategoryName(c)
    ensures forall c :: c in settings ==> ThresholdByName(SafetyLog(settings)[CategoryName(c)]) == Some(settings[c])
  {
    forall c | c in settings ensures ThresholdByName(SafetyLog(settings)[CategoryName(c)]) == Some(settings[c]) {
      SafetyLogAt(settings, c);
      ThresholdNameRoundTrip(settings[c]);
    }
  }

  // Generation parameters. Temperature and top-p are floats in the source; here they are
  // carried as exact reals and only ever copied.

  const TopKMin: int := 1
  const TopKMax: int := 100
  const MaxOutputTokensMin: int := 1
  const MaxOutputTokensMax: int := 8192

  /** The ranges the parameter widgets enforce. */
  predicate ParametersInRange(temperature: real, topP: real, topK: int, maxOutputTokens: int) {
    0.0 <= temperature <= 1.0 && 0.0 <= topP <= 1.0 &&
    TopKMin <= topK <= TopKMax && MaxOutputTokensMin <= maxOutputTokens <= MaxOutputTokensMax
  }

  /** Avatars and their size in pixels. */
  datatype UiSettings = UiSettings(userAvatar: string, aiAvatar: string, avatarSize: int)

  const DefaultApiKey: string := ""
  const DefaultModelName: string := "gemini-1.5-pro-latest"
  const DefaultSystemInstruction: string := "You are a helpful and friendly AI assistant. Please respond in Korean."
  const DefaultTemperature: real := 0.7
  const DefaultTopP: real := 1.0
  const DefaultTopK: int := 40
  const DefaultMaxOutputTokens: int := 2048
  const DefaultSafetySettings: map<HarmCategory, Threshold> :=
    map[Harassment := BlockNone, HateSpeech := BlockNone, SexuallyExplicit := BlockNone, DangerousContent := BlockNone]
  const DefaultUiSettings: UiSettings := UiSettings("🧑‍💻", "🤖", 40)

  /** The defaults are within the widget ranges and configure every category. */
  lemma DefaultsAreValid()
    ensures ParametersInRange(DefaultTemperature, DefaultTopP, DefaultTopK, DefaultMaxOutputTokens)
    ensures DefaultSafetySettings.Keys == AllCategories
    ensures forall c :: c in DefaultSafetySettings ==> DefaultSafetySettings[c] == BlockNone
  {
  }

  // Choosing a model from the listing.

  datatype ModelInfo = ModelInfo(name: string, supportedGenerationMethods: seq<string>)

  /** Python's `sub in s` on strings: `sub` occurs in `s` at some position. */
  predicate ContainsText(s: string, sub: string) {
    (|sub| <= |s| && s[..|sub|] == sub) || (s != [] && ContainsText(s[1..], sub))
  }

  /** A listed model is offered when it supports "generateContent" and its name contains "gemini". */
  predicate Offered(m: ModelInfo) {
    "generateContent" in m.supportedGenerationMethods && ContainsText(m.name, "gemini")
  }

  /** The two list comprehensions: names of models that are offered, in listing order. */
  function OfferedNames(models: seq<ModelInfo>): (r: seq<string>)
    ensures forall n :: n in r <==> exists m :: m in models && Offered(m) && m.name == n
  {
    if models == [] then []
    else
      var rest := OfferedNames(models[1..]);
      assert forall m :: m in models <==> m == models[0] || m in models[1..];
      if Offered(models[0]) then [models[0].name] + rest else rest
  }

  /** Python's string order: code point by code point, a proper prefix first. */
  predicate StrLe(a: string, b: string) {
    if a == [] then true
    else if b == [] then false
    else if a[0] != b[0] then a[0] < b[0]
    else StrLe(a[1..], b[1..])
  }

  lemma {:induction false} StrLeTotal(a: string, b: string)
    ensures StrLe(a, b) || StrLe(b, a)
  {
    if a != [] && b != [] && a[0] == b[0] {
      StrLeTotal(a[1..], b[1..]);
    }
  }

  lemma {:induction false} StrLeTrans(a: string, b: string, c: string)
    requires StrLe(a, b) && StrLe(b, c)
    ensures StrLe(a, c)
  {
    if a != [] && b != [] && c != [] && a[0] == b[0] && b[0] == c[0] {
      StrLeTrans(a[1..], b[1..], c[1..]);
    }
  }

  predicate Sorted(s: seq<string>) {
    forall i, j :: 0 <= i < j < |s| ==> StrLe(s[i], s[j])
  }

  function Insert(x: string, s: seq<string>): (r: seq<string>)
    requires Sorted(s)
    ensures Sorted(r) && multiset(r) == multiset(s) + multiset{x}
  {
    if s == [] then [x]
    else if StrLe(x, s[0]) then
      forall j | 0 <= j < |s| ensures StrLe(x, s[j]) {
        if j > 0 { StrLeTrans(x, s[0], s[j]); }
      }
      assert s == [s[0]] + s[1..];
      [x] + s
    else
      StrLeTotal(x, s[0]);
      var rest := Insert(x, s[1..]);
      assert s == [s[0]] + s[1..];
      forall k | 0 <= k < |rest| ensures StrLe(s[0], rest[k]) {
        assert rest[k] in multiset(rest);
        if rest[k] != x {
          assert rest[k] in s[1..];
        }
      }
      [s[0]] + rest
  }

  /** `sorted(...)`: an ordered permutation of its argument. */
  function SortNames(s: seq<string>): (r: seq<string>)
    ensures Sorted(r) && multiset(r) == multiset(s)
  {
    if s == [] then []
    else
      assert s == [s[0]] + s[1..];
      Insert(s[0], SortNames(s[1..]))
  }

  /** The models offered in the select box. */
  function GeminiModels(models: seq<ModelInfo>): seq<string> {
    SortNames(OfferedNames(models))
  }

  /**
   * The select box's initial choice: the current model when it is offered, otherwise
   * the first offered model; no choice at all when nothing is offered.
   */
  function DefaultModelChoice(models: seq<ModelInfo>, current: string): (r: Option<string>)
    ensures r.None? <==> GeminiModels(models) == []
    ensures r.Some? ==> r.value in GeminiModels(models)
    ensures (exists m :: m in models && Offered(m) && m.name == current) ==> r == Some(current)
    ensures r.Some? && r.value != current ==>
              (forall m :: m in models && Offered(m) ==> m.name != current) &&
              forall n :: n in GeminiModels(models) ==> StrLe(r.value, n)
  {
    var g := GeminiModels(models);
    assert forall n :: n in g <==> n in multiset(g);
    assert forall n :: n in OfferedNames(models) <==> n in multiset(OfferedNames(models));
    if g == [] then None
    else
      var i := IndexOf(g, current);
      forall n | n in g ensures StrLe(g[0], n) {
        var k :| 0 <= k < |g| && g[k] == n;
        if k == 0 {
          StrLeTotal(n, n);
        }
      }
      if i.Some? then Some(g[i.value]) else Some(g[0])
  }
}
