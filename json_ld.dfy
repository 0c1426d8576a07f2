/** The schema.org JSON-LD builders: FAQ pages, breadcrumb lists, articles,
    web pages, how-to guides and item lists. Each builder is paired with a
    reader that recovers its input from the JSON value, so that what the
    builder puts where is stated as a round trip. */
module JsonLd {
  import opened JsValues

  /** A JSON value. Objects are maps, so the order of keys is not modelled. */
  datatype Json =
    | JNull
    | JBool(b: bool)
    | JNum(n: real)
    | JStr(s: string)
    | JArr(elems: seq<Json>)
    | JObj(fields: map<string, Json>)

  const SchemaContext := "https://schema.org"
  const SiteName := "AdsenseCalculator.online"
  const SiteUrl := "https://adsensecalculator.online"
  const LogoUrl := "https://adsensecalculator.online/icon-512.jpg"

  function Field(j: Json, key: string): Option<Json> {
    if j.JObj? && key in j.fields then Some(j.fields[key]) else None
  }

  function StrAt(j: Json, key: string): Option<string> {
    var v := Field(j, key);
    if v.Some? && v.value.JStr? then Some(v.value.s) else None
  }

  /** The array under `key`, or the empty list when there is none. */
  function Elements(j: Json, key: string): seq<Json> {
    var v := Field(j, key);
    if v.Some? && v.value.JArr? then v.value.elems else []
  }

  /** The key of a conditional spread `...(v && { key: … })`: kept exactly
      when the value is supplied and non-empty. */
  function Supplied(v: Option<string>): (r: Option<string>)
    ensures r.Some? <==> Present(v)
    ensures r.Some? ==> r == v
  {
    if Present(v) then v else None
  }

  /** List elements numbered 1, 2, … in order under "position". */
  predicate NumberedFromOne(elems: seq<Json>) {
    forall k :: 0 <= k < |elems| ==> Field(elems[k], "position") == Some(JNum((k + 1) as real))
  }

  /** Reads every element, failing if one element does not read. */
  function ReadAll<T>(elems: seq<Json>, read: Json -> Option<T>): Option<seq<T>> {
    if elems == [] then Some([])
    else
      var first := read(elems[0]);
      var rest := ReadAll(elems[1..], read);
      if first.Some? && rest.Some? then Some([first.value] + rest.value) else None
  }

  /** Reading elements that each read back to the matching value gives the
      list of values. */
  lemma {:induction false} ReadAllOf<T>(elems: seq<Json>, read: Json -> Option<T>, values: seq<T>)
    requires |elems| == |values|
    requires forall k :: 0 <= k < |elems| ==> read(elems[k]) == Some(values[k])
    ensures ReadAll(elems, read) == Some(values)
  {
    if elems != [] {
      ReadAllOf(elems[1..], read, values[1..]);
      assert values == [values[0]] + values[1..];
    }
  }

  function ImageObject(url: string): Json {
    JObj(map["@type" := JStr("ImageObject"), "url" := JStr(url)])
  }

  /** The url of an image object. */
  function ReadImage(j: Json): Option<string> {
    if StrAt(j, "@type") == Some("ImageObject") then StrAt(j, "url") else None
  }

  /** The optional image key of an object, read back. */
  function ReadOptionalImage(j: Json): Option<string> {
    var v := Field(j, "image");
    if v.Some? then ReadImage(v.value) else None
  }

  function Publisher(): Json {
    JObj(map["@type" := JStr("Organization"), "name" := JStr(SiteName), "logo" := ImageObject(LogoUrl)])
  }

  // ---------------------------------------------------------------- FAQ page

  datatype Faq = Faq(question: string, answer: string)

  function Question(f: Faq): Json {
    JObj(map[
      "@type" := JStr("Question"),
      "name" := JStr(f.question),
      "acceptedAnswer" := JObj(map["@type" := JStr("Answer"), "text" := JStr(f.answer)])])
  }

  function ReadQuestion(q: Json): Option<Faq> {
    var answer := Field(q, "acceptedAnswer");
    if StrAt(q, "@type") == Some("Question") && StrAt(q, "name").Some? && answer.Some?
      && StrAt(answer.value, "text").Some?
    then Some(Faq(StrAt(q, "name").value, StrAt(answer.value, "text").value))
    else None
  }

  /** `faqPageSchema`: one Question per FAQ, in order. */
  function FaqPageSchema(faqs: seq<Faq>): (j: Json)
    ensures StrAt(j, "@context") == Some(SchemaContext) && StrAt(j, "@type") == Some("FAQPage")
    ensures |Elements(j, "mainEntity")| == |faqs|
  {
    JObj(map[
      "@context" := JStr(SchemaContext),
      "@type" := JStr("FAQPage"),
      "mainEntity" := JArr(seq(|faqs|, k requires 0 <= k < |faqs| => Question(faqs[k])))])
  }

  function ReadFaqPage(j: Json): Option<seq<Faq>> {
    if StrAt(j, "@type") == Some("FAQPage") then ReadAll(Elements(j, "mainEntity"), ReadQuestion) else None
  }

  /** Every question and answer is recovered, in order. */
  lemma FaqPageRoundTrip(faqs: seq<Faq>)
    ensures ReadFaqPage(FaqPageSchema(faqs)) == Some(faqs)
  {
    var elems := Elements(FaqPageSchema(faqs), "mainEntity");
    forall k | 0 <= k < |elems| ensures ReadQuestion(elems[k]) == Some(faqs[k]) {
      assert elems[k] == Question(faqs[k]);
    }
    ReadAllOf(elems, ReadQuestion, faqs);
  }

  // ---------------------------------------------------------- breadcrumb list

  datatype Link = Link(name: string, url: string)

  function LinkItem(l: Link, index: nat): Json {
    JObj(map[
      "@type" := JStr("ListItem"),
      "position" := JNum((index + 1) as real),
      "name" := JStr(l.name),
      "item" := JStr(l.url)])
  }

  function ReadLinkItem(j: Json): Option<Link> {
    if StrAt(j, "@type") == Some("ListItem") && StrAt(j, "name").Some? && StrAt(j, "item").Some?
    then Some(Link(StrAt(j, "name").value, StrAt(j, "item").value))
    else None
  }

  /** `breadcrumbSchema`: one ListItem per link, numbered from 1 in order. */
  function BreadcrumbSchema(links: seq<Link>): (j: Json)
    ensures StrAt(j, "@context") == Some(SchemaContext) && StrAt(j, "@type") == Some("BreadcrumbList")
    ensures |Elements(j, "itemListElement")| == |links|
    ensures NumberedFromOne(Elements(j, "itemListElement"))
  {
    JObj(map[
      "@context" := JStr(SchemaContext),
      "@type" := JStr("BreadcrumbList"),
      "itemListElement" := JArr(seq(|links|, k requires 0 <= k < |links| => LinkItem(links[k], k)))])
  }

  function ReadBreadcrumbList(j: Json): Option<seq<Link>> {
    if StrAt(j, "@type") == Some("BreadcrumbList") then ReadAll(Elements(j, "itemListElement"), ReadLinkItem)
    else None
  }

  /** Every name and url is recovered, in order. */
  lemma BreadcrumbRoundTrip(links: seq<Link>)
    ensures ReadBreadcrumbList(BreadcrumbSchema(links)) == Some(links)
  {
    var elems := Elements(BreadcrumbSchema(links), "itemListElement");
    forall k | 0 <= k < |elems| ensures ReadLinkItem(elems[k]) == Some(links[k]) {
      assert elems[k] == LinkItem(links[k], k);
    }
    ReadAllOf(elems, ReadLinkItem, links);
  }

  // ----------------------------------------------------------------- article

  datatype Article = Article(
    title: string, description: string, datePublished: string, dateModified: string,
    author: string, url: string, image: Option<string>)

  /** The keys of `articleSchema` that are always written. */
  function ArticleBody(a: Article): map<string, Json> {
    map[
      "@context" := JStr(SchemaContext),
      "@type" := JStr("Article"),
      "headline" := JStr(a.title),
      "description" := JStr(a.description),
      "datePublished" := JStr(a.datePublished),
      "dateModified" := JStr(a.dateModified),
      "author" := JObj(map["@type" := JStr("Person"), "name" := JStr(a.author)]),
      "publisher" := Publisher(),
      "mainEntityOfPage" := JObj(map["@type" := JStr("WebPage"), "@id" := JStr(a.url)])]
  }

  lemma ArticleBodyKeys(a: Article)
    ensures var m := ArticleBody(a);
      && "image" !in m
      && StrAt(JObj(m), "@context") == Some(SchemaContext) && StrAt(JObj(m), "@type") == Some("Article")
      && Field(JObj(m), "publisher") == Some(Publisher())
      && "author" in m && StrAt(m["author"], "name") == Some(a.author)
      && "mainEntityOfPage" in m && StrAt(m["mainEntityOfPage"], "@id") == Some(a.url)
  {
  }

  lemma ArticleBodyTexts(a: Article)
    ensures var m := ArticleBody(a);
      && StrAt(JObj(m), "headline") == Some(a.title) && StrAt(JObj(m), "description") == Some(a.description)
      && StrAt(JObj(m), "datePublished") == Some(a.datePublished)
      && StrAt(JObj(m), "dateModified") == Some(a.dateModified)
  {
  }

  /** Adding a key to an object leaves every other key as it was. */
  lemma FieldsOfUpdate(m: map<string, Json>, key: string, v: Json)
    ensures Field(JObj(m[key := v]), key) == Some(v)
    ensures forall k {:trigger Field(JObj(m), k)} :: k != key ==> Field(JObj(m[key := v]), k) == Field(JObj(m), k)
  {
  }

  /** `articleSchema`: the image key is present exactly when an image is
      supplied and non-empty. */
  function ArticleSchema(a: Article): (j: Json)
    ensures StrAt(j, "@context") == Some(SchemaContext) && StrAt(j, "@type") == Some("Article")
    ensures Field(j, "image").Some? <==> Present(a.image)
    ensures Field(j, "publisher") == Some(Publisher())
  {
    ArticleBodyKeys(a);
    var fields := ArticleBody(a);
    if Present(a.image) then JObj(fields["image" := ImageObject(a.image.value)]) else JObj(fields)
  }

  function ReadArticle(j: Json): Option<Article> {
    var author := Field(j, "author");
    var page := Field(j, "mainEntityOfPage");
    if StrAt(j, "@type") == Some("Article")
      && StrAt(j, "headline").Some? && StrAt(j, "description").Some?
      && StrAt(j, "datePublished").Some? && StrAt(j, "dateModified").Some?
      && author.Some? && StrAt(author.value, "name").Some?
      && page.Some? && StrAt(page.value, "@id").Some?
    then Some(Article(
      StrAt(j, "headline").value, StrAt(j, "description").value,
      StrAt(j, "datePublished").value, StrAt(j, "dateModified").value,
      StrAt(author.value, "name").value, StrAt(page.value, "@id").value,
      ReadOptionalImage(j)))
    else None
  }

  /** Every field is recovered; an empty image reads back as no image. */
  lemma ArticleRoundTrip(a: Article)
    ensures ReadArticle(ArticleSchema(a)) == Some(a.(image := Supplied(a.image)))
  {
    ArticleBodyKeys(a);
    ArticleBodyTexts(a);
    ReadArticleBody(ArticleBody(a), a);
  }

  /** Reading an object that holds an article's keys, with or without its
      image. */
  lemma ReadArticleBody(m: map<string, Json>, a: Article)
    requires "image" !in m
    requires StrAt(JObj(m), "@type") == Some("Article")
    requires StrAt(JObj(m), "headline") == Some(a.title) && StrAt(JObj(m), "description") == Some(a.description)
    requires StrAt(JObj(m), "datePublished") == Some(a.datePublished)
    requires StrAt(JObj(m), "dateModified") == Some(a.dateModified)
    requires "author" in m && StrAt(m["author"], "name") == Some(a.author)
    requires "mainEntityOfPage" in m && StrAt(m["mainEntityOfPage"], "@id") == Some(a.url)
    ensures ReadArticle(JObj(m)) == Some(a.(image := None))
    ensures Present(a.image) ==> ReadArticle(JObj(m["image" := ImageObject(a.image.value)])) == Some(a)
  {
    if Present(a.image) {
      FieldsOfUpdate(m, "image", ImageObject(a.image.value));
    }
  }

  // ---------------------------------------------------------------- web page

  /** A conditional spread `...(v && { key: v })`: the key is added exactly
      when there is a value for it. */
  function Spread(m: map<string, Json>, key: string, v: Option<Json>): map<string, Json> {
    if v.Some? then m[key := v.value] else m
  }

  /** The value a supplied, non-empty string spreads as. */
  function TextOf(v: Option<string>): (r: Option<Json>)
    ensures r.Some? <==> Present(v)
  {
    if Present(v) then Some(JStr(v.value)) else None
  }

  lemma SpreadFields(m: map<string, Json>, key: string, v: Option<Json>)
    ensures Field(JObj(Spread(m, key, v)), key) == if v.Some? then v else Field(JObj(m), key)
    ensures forall k {:trigger Field(JObj(m), k)} :: k != key ==> Field(JObj(Spread(m, key, v)), k) == Field(JObj(m), k)
  {
  }

  datatype WebPage = WebPage(
    name: string, description: string, url: string,
    datePublished: Option<string>, dateModified: Option<string>)

  /** The keys of `webPageSchema` that are always written. */
  function WebPageBody(p: WebPage): map<string, Json> {
    map[
      "@context" := JStr(SchemaContext),
      "@type" := JStr("WebPage"),
      "name" := JStr(p.name),
      "description" := JStr(p.description),
      "url" := JStr(p.url),
      "inLanguage" := JStr("en"),
      "isPartOf" := JObj(map["@type" := JStr("WebSite"), "name" := JStr(SiteName), "url" := JStr(SiteUrl)]),
      "publisher" := Publisher()]
  }

  lemma WebPageBodyKeys(p: WebPage)
    ensures var m := WebPageBody(p);
      && "datePublished" !in m && "dateModified" !in m
      && StrAt(JObj(m), "@context") == Some(SchemaContext) && StrAt(JObj(m), "@type") == Some("WebPage")
      && StrAt(JObj(m), "inLanguage") == Some("en")
  {
  }

  lemma WebPageBodyTexts(p: WebPage)
    ensures var m := WebPageBody(p);
      && StrAt(JObj(m), "name") == Some(p.name) && StrAt(JObj(m), "description") == Some(p.description)
      && StrAt(JObj(m), "url") == Some(p.url)
  {
  }

  /** `webPageSchema`: each date key is present exactly when that date is
      supplied and non-empty. */
  function WebPageSchema(p: WebPage): (j: Json)
    ensures StrAt(j, "@context") == Some(SchemaContext) && StrAt(j, "@type") == Some("WebPage")
    ensures Field(j, "datePublished").Some? <==> Present(p.datePublished)
    ensures Field(j, "dateModified").Some? <==> Present(p.dateModified)
    ensures StrAt(j, "inLanguage") == Some("en")
  {
    WebPageBodyKeys(p);
    var fields := WebPageBody(p);
    var withPublished := Spread(fields, "datePublished", TextOf(p.datePublished));
    SpreadFields(fields, "datePublished", TextOf(p.datePublished));
    SpreadFields(withPublished, "dateModified", TextOf(p.dateModified));
    JObj(Spread(withPublished, "dateModified", TextOf(p.dateModified)))
  }

  function ReadWebPage(j: Json): Option<WebPage> {
    if StrAt(j, "@type") == Some("WebPage")
      && StrAt(j, "name").Some? && StrAt(j, "description").Some? && StrAt(j, "url").Some?
    then Some(WebPage(
      StrAt(j, "name").value, StrAt(j, "description").value, StrAt(j, "url").value,
      StrAt(j, "datePublished"), StrAt(j, "dateModified")))
    else None
  }

  /** Every field is recovered; an empty date reads back as no date. */
  lemma WebPageRoundTrip(p: WebPage)
    ensures ReadWebPage(WebPageSchema(p))
      == Some(p.(datePublished := Supplied(p.datePublished), dateModified := Supplied(p.dateModified)))
  {
    WebPageBodyKeys(p);
    WebPageBodyTexts(p);
    var fields := WebPageBody(p);
    var withPublished := Spread(fields, "datePublished", TextOf(p.datePublished));
    SpreadFields(fields, "datePublished", TextOf(p.datePublished));
    SpreadFields(withPublished, "dateModified", TextOf(p.dateModified));
  }

  // ------------------------------------------------------------------ how-to

  datatype Step = Step(name: string, text: string, image: Option<string>)

  datatype HowTo = HowTo(
    name: string, description: string, steps: seq<Step>,
    totalTime: Option<string>, estimatedCost: Option<string>)

  function HowToStep(s: Step, index: nat): Json {
    var fields := map[
      "@type" := JStr("HowToStep"),
      "position" := JNum((index + 1) as real),
      "name" := JStr(s.name),
      "text" := JStr(s.text)];
    if Present(s.image) then JObj(fields["image" := ImageObject(s.image.value)]) else JObj(fields)
  }

  function ReadStep(j: Json): Option<Step> {
    if StrAt(j, "@type") == Some("HowToStep") && StrAt(j, "name").Some? && StrAt(j, "text").Some?
    then Some(Step(StrAt(j, "name").value, StrAt(j, "text").value, ReadOptionalImage(j)))
    else None
  }

  /** A step reads back with its position; an empty image reads back as no
      image. */
  lemma ReadStepOf(s: Step, index: nat)
    ensures ReadStep(HowToStep(s, index)) == Some(s.(image := Supplied(s.image)))
    ensures Field(HowToStep(s, index), "position") == Some(JNum((index + 1) as real))
  {
    var fields := map[
      "@type" := JStr("HowToStep"),
      "position" := JNum((index + 1) as real),
      "name" := JStr(s.name),
      "text" := JStr(s.text)];
    if Present(s.image) {
      FieldsOfUpdate(fields, "image", ImageObject(s.image.value));
    }
  }

  /** The steps in order, the step at index k at position k + 1. */
  function StepList(h: HowTo): (elems: seq<Json>)
    ensures |elems| == |h.steps| && NumberedFromOne(elems)
  {
    var elems := seq(|h.steps|, k requires 0 <= k < |h.steps| => HowToStep(h.steps[k], k));
    forall k | 0 <= k < |elems| ensures Field(elems[k], "position") == Some(JNum((k + 1) as real)) {
      ReadStepOf(h.steps[k], k);
    }
    elems
  }

  function MonetaryAmount(value: string): Json {
    JObj(map["@type" := JStr("MonetaryAmount"), "currency" := JStr("USD"), "value" := JStr(value)])
  }

  /** The value a supplied, non-empty cost spreads as. */
  function CostOf(v: Option<string>): (r: Option<Json>)
    ensures r.Some? <==> Present(v)
  {
    if Present(v) then Some(MonetaryAmount(v.value)) else None
  }

  /** The keys of `howToSchema` that are always written. */
  function HowToBody(h: HowTo): map<string, Json> {
    map[
      "@context" := JStr(SchemaContext),
      "@type" := JStr("HowTo"),
      "name" := JStr(h.name),
      "description" := JStr(h.description),
      "step" := JArr(StepList(h))]
  }

  lemma HowToBodyKeys(h: HowTo)
    ensures var m := HowToBody(h);
      && "totalTime" !in m && "estimatedCost" !in m
      && Elements(JObj(m), "step") == StepList(h)
      && StrAt(JObj(m), "@context") == Some(SchemaContext) && StrAt(JObj(m), "@type") == Some("HowTo")
      && StrAt(JObj(m), "name") == Some(h.name) && StrAt(JObj(m), "description") == Some(h.description)
  {
  }

  /** `howToSchema`: steps numbered from 1 in order; the total time and the
      estimated cost (a USD amount) are present exactly when supplied and
      non-empty. */
  function HowToSchema(h: HowTo): (j: Json)
    ensures StrAt(j, "@context") == Some(SchemaContext) && StrAt(j, "@type") == Some("HowTo")
    ensures |Elements(j, "step")| == |h.steps|
    ensures NumberedFromOne(Elements(j, "step"))
    ensures Field(j, "totalTime").Some? <==> Present(h.totalTime)
    ensures Field(j, "estimatedCost").Some? <==> Present(h.estimatedCost)
    ensures Present(h.estimatedCost) ==> StrAt(Field(j, "estimatedCost").value, "currency") == Some("USD")
  {
    HowToBodyKeys(h);
    HowToSpreads(HowToBody(h), h);
    JObj(Spread(Spread(HowToBody(h), "totalTime", TextOf(h.totalTime)), "estimatedCost", CostOf(h.estimatedCost)))
  }

  /** Spreading the total time and the cost over an object that holds the
      other keys of a how-to. */
  lemma HowToSpreads(m: map<string, Json>, h: HowTo)
    requires "totalTime" !in m && "estimatedCost" !in m
    requires Elements(JObj(m), "step") == StepList(h)
    requires StrAt(JObj(m), "@context") == Some(SchemaContext) && StrAt(JObj(m), "@type") == Some("HowTo")
    requires StrAt(JObj(m), "name") == Some(h.name) && StrAt(JObj(m), "description") == Some(h.description)
    ensures var j := JObj(Spread(Spread(m, "totalTime", TextOf(h.totalTime)), "estimatedCost", CostOf(h.estimatedCost)));
      && StrAt(j, "@context") == Some(SchemaContext) && StrAt(j, "@type") == Some("HowTo")
      && StrAt(j, "name") == Some(h.name) && StrAt(j, "description") == Some(h.description)
      && Elements(j, "step") == StepList(h)
      && StrAt(j, "totalTime") == Supplied(h.totalTime)
      && (Field(j, "totalTime").Some? <==> Present(h.totalTime))
      && (Field(j, "estimatedCost").Some? <==> Present(h.estimatedCost))
      && (Present(h.estimatedCost) ==> Field(j, "estimatedCost") == Some(MonetaryAmount(h.estimatedCost.value)))
  {
    var withTime := Spread(m, "totalTime", TextOf(h.totalTime));
    SpreadFields(m, "totalTime", TextOf(h.totalTime));
    SpreadFields(withTime, "estimatedCost", CostOf(h.estimatedCost));
  }

  function ReadCost(j: Json): Option<string> {
    var v := Field(j, "estimatedCost");
    if v.Some? && StrAt(v.value, "@type") == Some("MonetaryAmount") then StrAt(v.value, "value") else None
  }

  function ReadHowTo(j: Json): Option<HowTo> {
    var steps := ReadAll(Elements(j, "step"), ReadStep);
    if StrAt(j, "@type") == Some("HowTo") && StrAt(j, "name").Some? && StrAt(j, "description").Some? && steps.Some?
    then Some(HowTo(StrAt(j, "name").value, StrAt(j, "description").value, steps.value,
      StrAt(j, "totalTime"), ReadCost(j)))
    else None
  }

  /** The input a how-to reads back as: empty optional strings become absent. */
  function NormalizeHowTo(h: HowTo): HowTo {
    h.(steps := seq(|h.steps|, k requires 0 <= k < |h.steps| => h.steps[k].(image := Supplied(h.steps[k].image))),
       totalTime := Supplied(h.totalTime), estimatedCost := Supplied(h.estimatedCost))
  }

  /** The top-level fields read back, and the steps are those of the body. */
  lemma HowToFields(h: HowTo)
    ensures var j := HowToSchema(h);
      && StrAt(j, "@type") == Some("HowTo")
      && StrAt(j, "name") == Some(h.name)
      && StrAt(j, "description") == Some(h.description)
      && StrAt(j, "totalTime") == Supplied(h.totalTime)
      && ReadCost(j) == Supplied(h.estimatedCost)
      && Elements(j, "step") == StepList(h)
  {
    HowToBodyKeys(h);
    HowToSpreads(HowToBody(h), h);
  }

  /** The steps read back in order. */
  lemma HowToSteps(h: HowTo)
    ensures ReadAll(Elements(HowToSchema(h), "step"), ReadStep) == Some(NormalizeHowTo(h).steps)
  {
    HowToFields(h);
    var elems := StepList(h);
    var steps := NormalizeHowTo(h).steps;
    forall k | 0 <= k < |elems| ensures ReadStep(elems[k]) == Some(steps[k]) {
      ReadStepOf(h.steps[k], k);
    }
    ReadAllOf(elems, ReadStep, steps);
  }

  /** Every field and every step is recovered, in order. */
  lemma HowToRoundTrip(h: HowTo)
    ensures ReadHowTo(HowToSchema(h)) == Some(NormalizeHowTo(h))
  {
    HowToSteps(h);
    HowToFields(h);
  }

  // --------------------------------------------------------------- item list

  datatype ListEntry = ListEntry(name: string, url: string, description: Option<string>)

  function EntryItem(e: ListEntry, index: nat): Json {
    var fields := map[
      "@type" := JStr("ListItem"),
      "position" := JNum((index + 1) as real),
      "name" := JStr(e.name),
      "url" := JStr(e.url)];
    if Present(e.description) then JObj(fields["description" := JStr(e.description.value)]) else JObj(fields)
  }

  function ReadEntry(j: Json): Option<ListEntry> {
    if StrAt(j, "@type") == Some("ListItem") && StrAt(j, "name").Some? && StrAt(j, "url").Some?
    then Some(ListEntry(StrAt(j, "name").value, StrAt(j, "url").value, StrAt(j, "description")))
    else None
  }

  /** `itemListSchema`: entries numbered from 1 in order, each with a
      description key exactly when its description is supplied and
      non-empty. */
  function ItemListSchema(entries: seq<ListEntry>): (j: Json)
    ensures StrAt(j, "@context") == Some(SchemaContext) && StrAt(j, "@type") == Some("ItemList")
    ensures |Elements(j, "itemListElement")| == |entries|
    ensures NumberedFromOne(Elements(j, "itemListElement"))
    ensures forall k :: 0 <= k < |entries| ==>
      (Field(Elements(j, "itemListElement")[k], "description").Some? <==> Present(entries[k].description))
  {
    JObj(map[
      "@context" := JStr(SchemaContext),
      "@type" := JStr("ItemList"),
      "itemListElement" := JArr(seq(|entries|, k requires 0 <= k < |entries| => EntryItem(entries[k], k)))])
  }

  function ReadItemList(j: Json): Option<seq<ListEntry>> {
    if StrAt(j, "@type") == Some("ItemList") then ReadAll(Elements(j, "itemListElement"), ReadEntry) else None
  }

  /** Every entry is recovered, in order; an empty description reads back as
      no description. */
  lemma ItemListRoundTrip(entries: seq<ListEntry>)
    ensures ReadItemList(ItemListSchema(entries))
      == Some(seq(|entries|, k requires 0 <= k < |entries| => entries[k].(description := Supplied(entries[k].description))))
  {
    var elems := Elements(ItemListSchema(entries), "itemListElement");
    var expected := seq(|entries|, k requires 0 <= k < |entries| => entries[k].(description := Supplied(entries[k].description)));
    forall k | 0 <= k < |elems| ensures ReadEntry(elems[k]) == Some(expected[k]) {
      assert elems[k] == EntryItem(entries[k], k);
    }
    ReadAllOf(elems, ReadEntry, expected);
  }
}
