/**
 * The content-rule store of src/services/rulesService.ts: a free-text rule
 * block and an on/off flag kept in `localStorage`, and the prompt suffix
 * built from them.
 */
module Rules {
  import opened Js

  datatype ContentRules = ContentRules(rules: string, enabled: bool)

  /** The first line of the default rules. */
  const DefaultRulesHeading: string := "# 写作要求\n"

  const DefaultContentRules: string := DefaultRulesHeading + "- 内容准确、客观、有价值\n- 语言流畅，逻辑清晰\n- 适合目标读者群体\n\n# 格式规范\n- 使用标准Markdown格式\n- 标题层级分明\n- 段落长度适中\n\n# 质量标准\n- 避免重复和冗余内容\n- 确保信息的时效性和准确性"

  const RulesKey: string := "content_rules"

  const EnabledKey: string := "content_rules_enabled"

  /** The browser's `localStorage`: a map from keys to string values. */
  class LocalStorage {
    var items: map<string, string>

    constructor()
      ensures items == map[]
    {
      items := map[];
    }

    /** `localStorage.getItem(key)`: `None` stands for `null`. */
    function GetItem(key: string): (v: Option<string>)
      reads this
      ensures v.Some? <==> key in items
      ensures v.Some? ==> v.value == items[key]
    {
      if key in items then Some(items[key]) else None
    }

    /** `localStorage.setItem(key, value)`. */
    method SetItem(key: string, value: string)
      modifies this
      ensures items == old(items)[key := value]
    {
      items := items[key := value];
    }
  }

  /** `enabled.toString()`. */
  function BoolText(b: bool): string
  {
    if b then "true" else "false"
  }

  /** What `getContentRules` reads from a store holding `items`. */
  function ReadRules(items: map<string, string>): ContentRules
  {
    ContentRules(
      if RulesKey in items then items[RulesKey] else DefaultContentRules,
      !(EnabledKey in items && items[EnabledKey] == "false"))
  }

  /** The store after `saveContentRules(r)`. */
  function WriteRules(items: map<string, string>, r: ContentRules): map<string, string>
  {
    items[RulesKey := r.rules][EnabledKey := BoolText(r.enabled)]
  }

  /**
   * An empty store reads as the default rules, enabled; the flag is off only
   * for the exact text `"false"`.
   */
  lemma ReadRulesDefaults(items: map<string, string>)
    ensures RulesKey !in items ==> ReadRules(items).rules == DefaultContentRules
    ensures EnabledKey !in items ==> ReadRules(items).enabled
    ensures EnabledKey in items ==> (ReadRules(items).enabled <==> items[EnabledKey] != "false")
  {
  }

  /** Saving and then reading gives back what was saved, whatever the store held before. */
  lemma SaveThenGet(items: map<string, string>, r: ContentRules)
    ensures ReadRules(WriteRules(items, r)) == r
  {
    assert RulesKey != EnabledKey;
    assert BoolText(r.enabled) == "false" <==> !r.enabled;
  }

  /** Saving touches only the two rule keys. */
  lemma SaveKeepsOtherKeys(items: map<string, string>, r: ContentRules, k: string)
    requires k != RulesKey && k != EnabledKey
    ensures k in WriteRules(items, r) <==> k in items
    ensures k in items ==> WriteRules(items, r)[k] == items[k]
  {
  }

  /** `getContentRules()`. */
  function GetContentRules(store: LocalStorage): ContentRules
    reads store
  {
    ReadRules(store.items)
  }

  /** `saveContentRules(r)`: afterwards `getContentRules()` returns `r`. */
  method SaveContentRules(store: LocalStorage, r: ContentRules)
    modifies store
    ensures store.items == WriteRules(old(store.items), r)
    ensures GetContentRules(store) == r
  {
    store.SetItem(RulesKey, r.rules);
    store.SetItem(EnabledKey, BoolText(r.enabled));
    SaveThenGet(old(store.items), r);
  }

  const RulesIntro: string := "\n\n请遵循以下内容生成规则：\n"

  const RulesOutro: string := "\n\n请确保生成的内容严格按照上述规则要求进行编写。"

  /** The prompt with the rules block appended when the rules are on and not blank. */
  function ApplyRules(basePrompt: string, r: ContentRules): string
  {
    if !r.enabled || IsBlank(r.rules) then basePrompt
    else basePrompt + RulesIntro + r.rules + RulesOutro
  }

  /**
   * The prompt is left unchanged exactly when the rules are off or blank;
   * otherwise it is the prompt followed, after the introduction, by the
   * rules text verbatim.
   */
  lemma ApplyRulesSpec(basePrompt: string, r: ContentRules)
    ensures ApplyRules(basePrompt, r) == basePrompt <==> !r.enabled || IsBlank(r.rules)
    ensures r.enabled && !IsBlank(r.rules) ==>
      var p := ApplyRules(basePrompt, r);
      && |basePrompt| + |RulesIntro| + |r.rules| <= |p|
      && p[..|basePrompt|] == basePrompt
      && p[|basePrompt| + |RulesIntro|..|basePrompt| + |RulesIntro| + |r.rules|] == r.rules
  {
    if r.enabled && !IsBlank(r.rules) {
      assert |RulesIntro| > 0;
      FourPartSlices(basePrompt, RulesIntro, r.rules, RulesOutro);
    }
  }

  /** The first and third parts can be sliced back out of four strings put together. */
  lemma FourPartSlices(a: string, b: string, c: string, d: string)
    ensures var s := a + b + c + d;
            && |a| + |b| + |c| <= |s|
            && s[..|a|] == a
            && s[|a| + |b|..|a| + |b| + |c|] == c
  {
    var s := a + b + c + d;
    assert s[..|a|] == a;
    assert s[|a| + |b|..|a| + |b| + |c|] == c;
  }

  /** `applyRulesToPrompt(basePrompt)`: reads the store (and, being a function, cannot write it). */
  function ApplyRulesToPrompt(store: LocalStorage, basePrompt: string): string
    reads store
  {
    ApplyRules(basePrompt, GetContentRules(store))
  }

  /** With nothing stored, the default rules are appended. */
  lemma DefaultRulesApplied(basePrompt: string)
    ensures ApplyRules(basePrompt, ReadRules(map[])) == basePrompt + RulesIntro + DefaultContentRules + RulesOutro
  {
    assert DefaultRulesHeading[0] == '#';
    assert !IsWhitespace(DefaultContentRules[0]);
    BlankIffAllWhitespace(DefaultContentRules);
  }
}
