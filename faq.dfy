/** The rule-based answerer: a business's FAQ rules in the language of the
    conversation or English, ranked by priority and language, matched on
    keywords; then the greeting, help and thanks fallbacks. */
module Faq {
  import opened Wrappers
  import opened Text
  import opened Lang
  import opened Ordering
  import opened Generic

  /** A row of the `faq_rules` table. */
  datatype FaqRule = FaqRule(id: nat, businessId: int, pattern: string, answer: string, language: string,
                             priority: int)

  // ------------------------------------------------------------- ranking

  /** `language = ? OR language = 'en'` of the business. */
  predicate IsCandidate(r: FaqRule, businessId: int, lang: string) {
    r.businessId == businessId && (r.language == lang || r.language == "en")
  }

  /** `ORDER BY priority DESC, language DESC`: `a` may come before `b`. */
  predicate RankedBefore(a: FaqRule, b: FaqRule) {
    a.priority > b.priority
    || (a.priority == b.priority && (a.language == b.language || StrLt(b.language, a.language)))
  }

  lemma {:induction false} StrLtAsymmetric(a: string, b: string)
    requires StrLt(a, b)
    ensures !StrLt(b, a)
    decreases |a|
  {
    if a != [] && a[0] == b[0] {
      StrLtAsymmetric(a[1..], b[1..]);
    }
  }

  lemma RankedBeforeTransitive(a: FaqRule, b: FaqRule, c: FaqRule)
    requires RankedBefore(a, b) && RankedBefore(b, c)
    ensures RankedBefore(a, c)
  {
    if a.priority == b.priority == c.priority && a.language != b.language && b.language != c.language {
      StrLtTransitive(c.language, b.language, a.language);
    }
  }

  lemma RankedBeforeTotal(a: FaqRule, b: FaqRule)
    ensures RankedBefore(a, b) || RankedBefore(b, a)
  {
    StrLtTotal(a.language, b.language);
  }

  predicate Ranked(s: seq<FaqRule>) {
    forall i, j | 0 <= i < j < |s| :: RankedBefore(s[i], s[j])
  }

  /** Puts `x` before the first rule it may precede. */
  function InsertRule(x: FaqRule, s: seq<FaqRule>): (r: seq<FaqRule>)
    ensures multiset(r) == multiset(s) + multiset{x}
  {
    if s == [] then [x]
    else if RankedBefore(x, s[0]) then [x] + s
    else
      assert s == [s[0]] + s[1..];
      [s[0]] + InsertRule(x, s[1..])
  }

  lemma PrependRanked(y: FaqRule, s: seq<FaqRule>)
    requires Ranked(s) && forall j | 0 <= j < |s| :: RankedBefore(y, s[j])
    ensures Ranked([y] + s)
  {
    forall i, j | 0 <= i < j < |s| + 1 ensures RankedBefore(([y] + s)[i], ([y] + s)[j]) {
      if i > 0 {
        assert ([y] + s)[i] == s[i - 1] && ([y] + s)[j] == s[j - 1];
      }
    }
  }

  lemma {:induction false} InsertRuleRanked(x: FaqRule, s: seq<FaqRule>)
    requires Ranked(s)
    ensures Ranked(InsertRule(x, s))
    decreases |s|
  {
    if s == [] {
    } else if RankedBefore(x, s[0]) {
      forall j | 0 <= j < |s| ensures RankedBefore(x, s[j]) {
        if j > 0 {
          RankedBeforeTransitive(x, s[0], s[j]);
        }
      }
      PrependRanked(x, s);
    } else {
      var tail := s[1..];
      assert Ranked(tail) by {
        forall i, j | 0 <= i < j < |tail| ensures RankedBefore(tail[i], tail[j]) {
          assert tail[i] == s[i + 1] && tail[j] == s[j + 1];
        }
      }
      InsertRuleRanked(x, tail);
      var rest := InsertRule(x, tail);
      RankedBeforeTotal(x, s[0]);
      forall j | 0 <= j < |rest| ensures RankedBefore(s[0], rest[j]) {
        assert rest[j] in multiset(rest);
        if rest[j] != x {
          assert rest[j] in multiset(tail);
          var k :| 0 <= k < |tail| && tail[k] == rest[j];
          assert s[k + 1] == rest[j];
        }
      }
      PrependRanked(s[0], rest);
    }
  }

  /** The rules in ranking order: the same rules, ranked. */
  function RankRules(xs: seq<FaqRule>): (r: seq<FaqRule>)
    ensures multiset(r) == multiset(xs)
    ensures Ranked(r)
  {
    if xs == [] then []
    else
      assert xs == [xs[0]] + xs[1..];
      var ranked := RankRules(xs[1..]);
      InsertRuleRanked(xs[0], ranked);
      InsertRule(xs[0], ranked)
  }

  /** The `faqRules` query: the business's rules in the conversation's
      language or English, ranked. */
  function CandidateRules(table: seq<FaqRule>, businessId: int, lang: string): (r: seq<FaqRule>)
    ensures Ranked(r)
    ensures forall x :: multiset(r)[x] == if IsCandidate(x, businessId, lang) then multiset(table)[x] else 0
  {
    RankRules(Select(table, x => IsCandidate(x, businessId, lang)))
  }

  /** At equal priority the language order decides: a rule in a language whose
      code sorts after "en" comes before the English rules, one whose code
      sorts before "en" after them. */
  lemma LanguageBreaksTies(rs: seq<FaqRule>, i: nat, j: nat)
    requires Ranked(rs) && i < |rs| && j < |rs|
    requires rs[i].priority == rs[j].priority && rs[i].language == "en" && StrLt("en", rs[j].language)
    ensures j < i
  {
    StrLtAsymmetric("en", rs[j].language);
    StrLtIrreflexive("en");
    assert !RankedBefore(rs[i], rs[j]);
    assert i != j;
  }

  lemma EnglishBeforeEarlierCodes(rs: seq<FaqRule>, i: nat, j: nat)
    requires Ranked(rs) && i < |rs| && j < |rs|
    requires rs[i].priority == rs[j].priority && rs[i].language == "en" && StrLt(rs[j].language, "en")
    ensures i < j
  {
    StrLtAsymmetric(rs[j].language, "en");
    StrLtIrreflexive("en");
    assert !RankedBefore(rs[j], rs[i]);
    assert i != j;
  }

  /** So "xh", "zu" and "st" rules outrank English ones of the same priority,
      and "af" rules are outranked by them. */
  lemma LanguageCodesAroundEnglish()
    ensures StrLt("en", "xh") && StrLt("en", "zu") && StrLt("en", "st") && StrLt("af", "en")
  {
    assert StrLt("n", "h") == false;
    assert StrLt("", "h");
    assert StrLt("", "u");
    assert StrLt("", "t");
    assert StrLt("", "n");
  }

  // ------------------------------------------------------------ matching

  /** `pattern.split('|').map(k => k.trim())` */
  function Keywords(pattern: string): seq<string> {
    var parts := Split(pattern, '|');
    seq(|parts|, k requires 0 <= k < |parts| => Trim(parts[k]))
  }

  /** One keyword per `|`-separated piece, that piece trimmed. */
  lemma KeywordsTrimmed(pattern: string)
    ensures |Keywords(pattern)| == |Split(pattern, '|')|
    ensures forall k | 0 <= k < |Keywords(pattern)| :: Keywords(pattern)[k] == Trim(Split(pattern, '|')[k])
  {
  }

  /** A pattern with a '|' matches when any trimmed keyword is in the text;
      any other pattern when the whole of it is. */
  predicate RuleMatches(r: FaqRule, text: string) {
    var pattern := ToLower(r.pattern);
    if '|' in pattern then exists k | 0 <= k < |Keywords(pattern)| :: Contains(text, Keywords(pattern)[k])
    else Contains(text, pattern)
  }

  /** An empty or blank keyword, as in "price|" or "a||b", is in every text:
      such a rule answers everything that reaches it. */
  lemma BlankKeywordMatchesAll(r: FaqRule, text: string, k: nat)
    requires '|' in ToLower(r.pattern)
    requires k < |Split(ToLower(r.pattern), '|')| && AllSpace(Split(ToLower(r.pattern), '|')[k])
    ensures RuleMatches(r, text)
  {
    KeywordsTrimmed(ToLower(r.pattern));
    assert Keywords(ToLower(r.pattern))[k] == [];
    assert OccursAt(text, [], 0);
  }

  /** The first matching rule of the ranked list. */
  function FirstMatch(rules: seq<FaqRule>, text: string): (r: Option<nat>)
    ensures r.Some? ==> r.value < |rules| && RuleMatches(rules[r.value], text)
                        && forall j | 0 <= j < r.value :: !RuleMatches(rules[j], text)
    ensures r.None? ==> forall j | 0 <= j < |rules| :: !RuleMatches(rules[j], text)
  {
    if rules == [] then None
    else if RuleMatches(rules[0], text) then Some(0)
    else
      var rest := FirstMatch(rules[1..], text);
      assert forall j | 1 <= j < |rules| :: rules[1..][j - 1] == rules[j];
      match rest
      case None => None
      case Some(k) => Some(k + 1)
  }

  /** The test of one rule, as the loop body makes it. */
  method MatchRule(r: FaqRule, text: string) returns (hit: bool)
    ensures hit == RuleMatches(r, text)
  {
    var pattern := ToLower(r.pattern);
    if '|' in pattern {
      var keywords := Keywords(pattern);
      hit := exists w | 0 <= w < |keywords| :: Contains(text, keywords[w]);
    } else {
      hit := Contains(text, pattern);
    }
  }

  /** None of the first `k` rules matches. */
  predicate NoneMatch(rules: seq<FaqRule>, text: string, k: nat)
    requires k <= |rules|
  {
    k == 0 || (NoneMatch(rules, text, k - 1) && !RuleMatches(rules[k - 1], text))
  }

  lemma {:induction false} NoneMatchAt(rules: seq<FaqRule>, text: string, k: nat, j: nat)
    requires k <= |rules| && NoneMatch(rules, text, k) && j < k
    ensures !RuleMatches(rules[j], text)
  {
    if j < k - 1 {
      NoneMatchAt(rules, text, k - 1, j);
    }
  }

  lemma NoneMatchBefore(rules: seq<FaqRule>, text: string, k: nat)
    requires k <= |rules| && NoneMatch(rules, text, k)
    ensures forall j | 0 <= j < k :: !RuleMatches(rules[j], text)
  {
    forall j | 0 <= j < k
      ensures !RuleMatches(rules[j], text)
    {
      NoneMatchAt(rules, text, k, j);
    }
  }

  /** The `for (const rule of faqRules)` loop, returning the first match's
      answer. */
  method FirstAnswer(rules: seq<FaqRule>, text: string) returns (answer: Option<string>)
    ensures answer == if FirstMatch(rules, text).Some? then Some(rules[FirstMatch(rules, text).value].answer) else None
  {
    var k := 0;
    while k < |rules|
      invariant k <= |rules|
      invariant NoneMatch(rules, text, k)
    {
      var hit := MatchRule(rules[k], text);
      if hit {
        NoneMatchBefore(rules, text, k);
        FirstMatchIs(rules, text, k);
        return Some(rules[k].answer);
      }
      k := k + 1;
    }
    NoneMatchBefore(rules, text, |rules|);
    NoMatchIsNone(rules, text);
    return None;
  }

  /** No rule matching means no first match. */
  lemma NoMatchIsNone(rules: seq<FaqRule>, text: string)
    requires forall j | 0 <= j < |rules| :: !RuleMatches(rules[j], text)
    ensures FirstMatch(rules, text).None?
  {
  }

  /** The first matching index is the first match. */
  lemma FirstMatchIs(rules: seq<FaqRule>, text: string, k: nat)
    requires k < |rules| && RuleMatches(rules[k], text)
    requires forall j | 0 <= j < k :: !RuleMatches(rules[j], text)
    ensures FirstMatch(rules, text) == Some(k)
  {
    var m := FirstMatch(rules, text);
    assert m.Some?;
    assert !(m.value < k);
    assert !(k < m.value);
  }

  // ------------------------------------------------------------ fallbacks

  const GreetWords := ["hello", "hi", "greetings", "hallo", "molo", "sawubona", "dumela"]
  const HelpWords := ["help", "assist", "support"]
  const ThanksWords := ["thank", "thanks", "dankie", "enkosi", "ngiyabonga", "kea leboha"]

  const HelpDefault := "How can I help you today?"

  const HelpBarberEn := "Here's what I can help you with:\n\n• View services and prices - reply \"services\"\n• Book an appointment - reply \"book [service] [date] [time]\"\n• View operating hours - reply \"hours\"\n• Cancel booking - reply \"cancel\"\n\nNeed more help? Just ask!"
  const HelpCarwashEn := "Here's what I can help you with:\n\n• View services and prices - reply \"services\"\n• Check queue status - reply \"queue\"\n• Book a slot - reply \"book [service] [date] [time]\"\n• View operating hours - reply \"hours\"\n\nNeed more help? Just ask!"
  const HelpSpazaEn := "Here's what I can help you with:\n\n• View products and prices - reply \"menu\"\n• Place an order - reply \"order [items]\"\n• Check stock - reply \"stock [product]\"\n• Delivery info - reply \"delivery\"\n• View operating hours - reply \"hours\"\n\nNeed more help? Just ask!"
  const HelpBarberAf := "Hier is wat ek kan help:\n\n• Bekyk dienste en pryse\n• Bespreek 'n afspraak\n• Bekyk bedryfstye\n• Kanselleer bespreking"
  const HelpCarwashAf := "Hier is wat ek kan help:\n\n• Bekyk dienste\n• Kyk wagtou status\n• Bespreek 'n slot"
  const HelpSpazaAf := "Hier is wat ek kan help:\n\n• Bekyk produkte\n• Plaas bestelling\n• Kyk voorraad"
  const HelpBarberXh := "Nantoni endinoku kunceda ngayo:\n\n• Jonga iinkonzo nemali\n• Bhukisha umhlathi\n• Jonga iiyure zokusebenza"
  const HelpCarwashXh := "Nantoni endinoku kunceda ngayo:\n\n• Jonga iinkonzo\n• Jonga imeko yejanjane"
  const HelpSpazaXh := "Nantoni endinoku kunceda ngayo:\n\n• Jonga iimveliso\n• Beka umyalelo"
  const HelpBarberZu := "Yilokho engingakusiza ngakho:\n\n• Bona izinsiza namaphrizisi\n• Buka isikhathi\n• Buka amahora okusebenza"
  const HelpCarwashZu := "Yilokho engingakusiza ngakho:\n\n• Bona izinsiza\n• Buka isimo sejanjane"
  const HelpSpazaZu := "Yilokho engingakusiza ngakho:\n\n• Bona imikhiqizo\n• Beka i-oda"
  const HelpBarberSt := "Ke tseo nka u thusang ka tsona:\n\n• Bona litšebeletso le theko\n• Buka nako\n• Bona lihora tsa tshebetso"
  const HelpCarwashSt := "Ke tseo nka u thusang ka tsona:\n\n• Bona litšebeletso\n• Buka boemo ba lethathamo"
  const HelpSpazaSt := "Ke tseo nka u thusang ka tsona:\n\n• Bona lihlahisoa\n• Beka taelo"

  /** The help texts of one language, by business type. */
  function HelpTable(code: string): (t: map<string, string>)
    ensures "barber" in t && t["barber"] != ""
  {
    match Resolve(code)
    case "af" => map["barber" := HelpBarberAf, "carwash" := HelpCarwashAf, "spaza" := HelpSpazaAf]
    case "xh" => map["barber" := HelpBarberXh, "carwash" := HelpCarwashXh, "spaza" := HelpSpazaXh]
    case "zu" => map["barber" := HelpBarberZu, "carwash" := HelpCarwashZu, "spaza" := HelpSpazaZu]
    case "st" => map["barber" := HelpBarberSt, "carwash" := HelpCarwashSt, "spaza" := HelpSpazaSt]
    case _ => map["barber" := HelpBarberEn, "carwash" := HelpCarwashEn, "spaza" := HelpSpazaEn]
  }

  /** `getHelpMessage`: the table of the language (English when it has none),
      the entry of the business type, else the barber entry, else a generic
      line. Every table has a barber entry, so the generic line is never
      given. */
  function HelpMessage(businessType: string, code: string): (r: string)
    ensures r != ""
    ensures r != HelpDefault ==> r in HelpTable(code).Values
    ensures r == HelpTable(code)["barber"] || (businessType in HelpTable(code) && r == HelpTable(code)[businessType])
  {
    var t := HelpTable(code);
    if businessType in t && t[businessType] != "" then t[businessType]
    else if "barber" in t && t["barber"] != "" then t["barber"]
    else HelpDefault
  }

  /** An unknown language reads the English table and an unknown business type
      the barber entry. */
  lemma HelpFallbacks(businessType: string, code: string)
    ensures !Known(code) ==> HelpMessage(businessType, code) == HelpMessage(businessType, "en")
    ensures businessType !in {"barber", "carwash", "spaza"} ==>
              HelpMessage(businessType, code) == HelpMessage("barber", code)
  {
    var t := HelpTable(code);
    assert t.Keys == {"barber", "carwash", "spaza"};
  }

  function ThankYouMessage(code: string): string {
    match Resolve(code)
    case "af" => "Dis 'n plesier! Is daar nog iets waarmee ek kan help?"
    case "xh" => "Wamkelekile! Ingaba kukho enye into endinoku kunceda ngayo?"
    case "zu" => "Wamukelekile! Ingabe kukhona enye into engingakusiza ngayo?"
    case "st" => "O amohetse! Na ho na le tse ling tseo nka u thusang ka tsona?"
    case _ => ThanksEn
  }

  const ThanksEn := "You're welcome! Is there anything else I can help you with?"

  lemma UnknownLanguageThanksEnglish(code: string)
    requires !Known(code)
    ensures ThankYouMessage(code) == ThanksEn
  {
  }

  // ------------------------------------------------------------ the answer

  /** The language of a possibly absent customer: `customer?.language`. */
  function CustomerLanguage(customer: Option<Customer>): string {
    if customer.Some? then customer.value.language else ""
  }

  /** `getAIResponse(business, customer, messageText)` over the `faq_rules`
      table. */
  function AIResponse(business: Business, customer: Option<Customer>, table: seq<FaqRule>,
                      messageText: string): (r: Option<string>)
    ensures !business.aiEnabled ==> r.None?
    ensures business.aiEnabled ==>
              var lang := Effective(CustomerLanguage(customer), business.language);
              var rules := CandidateRules(table, business.id, lang);
              var m := FirstMatch(rules, ToLower(messageText));
              (m.Some? ==> r == Some(rules[m.value].answer))
              && (m.None? && MentionsAny(ToLower(messageText), GreetWords) ==>
                    r == Some(GetGreeting(business, CustomerLanguage(customer))))
              && ((m.None? && !MentionsAny(ToLower(messageText), GreetWords)
                   && MentionsAny(ToLower(messageText), HelpWords)) ==>
                    r == Some(HelpMessage(business.businessType, lang)))
              && ((m.None? && !MentionsAny(ToLower(messageText), GreetWords)
                   && !MentionsAny(ToLower(messageText), HelpWords)
                   && MentionsAny(ToLower(messageText), ThanksWords)) ==>
                    r == Some(ThankYouMessage(lang)))
              && ((m.None? && !MentionsAny(ToLower(messageText), GreetWords)
                   && !MentionsAny(ToLower(messageText), HelpWords)
                   && !MentionsAny(ToLower(messageText), ThanksWords)) ==>
                    r.None?)
  {
    if !business.aiEnabled then None
    else
      var lang := Effective(CustomerLanguage(customer), business.language);
      var text := ToLower(messageText);
      var rules := CandidateRules(table, business.id, lang);
      match FirstMatch(rules, text)
      case Some(k) => Some(rules[k].answer)
      case None => Fallback(business, CustomerLanguage(customer), lang, text)
  }

  /** The default responses after no rule matched. */
  function Fallback(business: Business, customerLang: string, lang: string, text: string): Option<string> {
    if MentionsAny(text, GreetWords) then Some(GetGreeting(business, customerLang))
    else if MentionsAny(text, HelpWords) then Some(HelpMessage(business.businessType, lang))
    else if MentionsAny(text, ThanksWords) then Some(ThankYouMessage(lang))
    else None
  }

  /** A rule is answered in preference to every fallback: when a candidate
      rule matches, the first match exists and is that rule or one ranked
      before it, and its answer is the response. */
  lemma RuleBeatsFallback(table: seq<FaqRule>, businessId: int, lang: string, text: string, rule: FaqRule)
    requires rule in table && IsCandidate(rule, businessId, lang) && RuleMatches(rule, text)
    ensures var rules := CandidateRules(table, businessId, lang);
            var m := FirstMatch(rules, text);
            m.Some? && (rules[m.value] == rule || RankedBefore(rules[m.value], rule))
  {
    var i := CandidateIndex(table, businessId, lang, rule);
    FirstMatchRanksFirst(CandidateRules(table, businessId, lang), text, i);
  }

  /** Every candidate rule of the table is in the ranked list. */
  lemma CandidateIndex(table: seq<FaqRule>, businessId: int, lang: string, rule: FaqRule) returns (i: nat)
    requires rule in table && IsCandidate(rule, businessId, lang)
    ensures i < |CandidateRules(table, businessId, lang)| && CandidateRules(table, businessId, lang)[i] == rule
  {
    var rules := CandidateRules(table, businessId, lang);
    assert multiset(table)[rule] > 0;
    assert multiset(rules)[rule] > 0;
    i :| 0 <= i < |rules| && rules[i] == rule;
  }

  /** In a ranked list, the first match is ranked no later than any match. */
  lemma FirstMatchRanksFirst(rules: seq<FaqRule>, text: string, i: nat)
    requires Ranked(rules) && i < |rules| && RuleMatches(rules[i], text)
    ensures FirstMatch(rules, text).Some? && FirstMatch(rules, text).value <= i
    ensures rules[FirstMatch(rules, text).value] == rules[i]
            || RankedBefore(rules[FirstMatch(rules, text).value], rules[i])
  {
    var m := FirstMatch(rules, text);
    assert m.Some?;
    var k := m.value;
    assert k <= i;
    if k < i {
      assert RankedBefore(rules[k], rules[i]);
    }
  }

  /** "hi" is inside "this", "which" and "shipping": with no matching rule,
      any text containing those letters gets the greeting. */
  lemma HiInsideWordsGreets(business: Business, customerLang: string, lang: string, text: string)
    requires Contains(text, "hi")
    ensures Fallback(business, customerLang, lang, text) == Some(GetGreeting(business, customerLang))
  {
    assert GreetWords[1] == "hi";
  }

  /** `getAIResponse`, with the rule loop as a method. */
  method GetAIResponse(business: Business, customer: Option<Customer>, table: seq<FaqRule>, messageText: string)
    returns (response: Option<string>)
    ensures response == AIResponse(business, customer, table, messageText)
  {
    if !business.aiEnabled {
      return None;
    }
    var lang := Effective(CustomerLanguage(customer), business.language);
    var text := ToLower(messageText);
    var rules := CandidateRules(table, business.id, lang);
    response := FirstAnswer(rules, text);
    if response.None? {
      response := Fallback(business, CustomerLanguage(customer), lang, text);
    }
  }

  // ------------------------------------------------------------ training

  /** The `faq_rules` table; `nextId` is the id the next insert gets. */
  class FaqTable {
    var rules: seq<FaqRule>
    var nextId: nat

    constructor (rules: seq<FaqRule>, nextId: nat)
      ensures this.rules == rules && this.nextId == nextId
    {
      this.rules := rules;
      this.nextId := nextId;
    }

    /** `addFAQRule(businessId, questionPattern, answer, language = 'en',
        priority = 0)`; an absent argument takes its default. */
    method AddFAQRule(businessId: int, questionPattern: string, answer: string,
                      language: Option<string>, priority: Option<int>) returns (id: nat, success: bool)
      modifies this
      ensures id == old(nextId) && success && nextId == old(nextId) + 1
      ensures rules == old(rules) + [DefaultedRule(id, businessId, questionPattern, answer, language, priority)]
    {
      id := nextId;
      rules := rules + [DefaultedRule(id, businessId, questionPattern, answer, language, priority)];
      nextId := nextId + 1;
      success := true;
    }
  }

  /** The row `addFAQRule` inserts. */
  function DefaultedRule(id: nat, businessId: int, questionPattern: string, answer: string,
                         language: Option<string>, priority: Option<int>): (r: FaqRule)
    ensures language.None? ==> r.language == "en"
    ensures priority.None? ==> r.priority == 0
    ensures r.businessId == businessId && r.pattern == questionPattern && r.answer == answer
  {
    FaqRule(id, businessId, questionPattern, answer, language.GetOr("en"), priority.GetOr(0))
  }

  /** A rule added without a language is English, so it is a candidate in
      every conversation of its business. */
  lemma DefaultRuleEverywhere(table: seq<FaqRule>, id: nat, businessId: int, questionPattern: string,
                              answer: string, priority: Option<int>, lang: string)
    ensures var r := DefaultedRule(id, businessId, questionPattern, answer, None, priority);
            r in CandidateRules(table + [r], businessId, lang)
  {
    var r := DefaultedRule(id, businessId, questionPattern, answer, None, priority);
    assert r in multiset(table + [r]);
    assert multiset(CandidateRules(table + [r], businessId, lang))[r] > 0;
  }
}
