/** The banding helpers of components/email-card.tsx (urgency score to a colour
    band, category to a colour and an icon) and the dashboard's urgency bar,
    which uses the same thresholds. */
module EmailCard {
  import opened JsBuiltins
  import AiEngine

  const Red := "bg-red-600"
  const Yellow := "bg-yellow-600"
  const Green := "bg-green-600"

  /** `getUrgencyColor`. */
  function UrgencyColor(score: int): (r: string)
    ensures r == Red || r == Yellow || r == Green
  {
    if score > 80 then Red
    else if score > 50 then Yellow
    else Green
  }

  /** The band's position from low (green) to high (red). */
  function BandRank(color: string): nat {
    if color == Red then 2 else if color == Yellow then 1 else 0
  }

  /** The three bands partition the scores: red above 80, yellow in (50, 80], green up to 50. */
  lemma UrgencyBands(score: int)
    ensures UrgencyColor(score) == "bg-red-600" <==> score > 80
    ensures UrgencyColor(score) == "bg-yellow-600" <==> 50 < score <= 80
    ensures UrgencyColor(score) == "bg-green-600" <==> score <= 50
  {
  }

  /** A higher score never falls into a lower band. */
  lemma UrgencyMonotone(s: int, t: int)
    requires s <= t
    ensures BandRank(UrgencyColor(s)) <= BandRank(UrgencyColor(t))
  {
  }

  /** The urgency bar of the dashboard page (its nested conditional expression). */
  function DashboardBarColor(score: int): string {
    if score > 80 then "bg-red-600" else if score > 50 then "bg-yellow-600" else "bg-green-600"
  }

  /** The card and the dashboard draw every score in the same band. */
  lemma BarMatchesCard(score: int)
    ensures DashboardBarColor(score) == UrgencyColor(score)
  {
  }

  /** The fallback record and every defaulted score (50) are drawn green, and the
      fallback's category 'Autre' yellow. */
  lemma DefaultsAreDrawnLow(f: AiEngine.ReplyFields)
    requires f.urgencyScore == None || f.urgencyScore == Some(0)
    ensures UrgencyColor(AiEngine.Normalise(f).urgencyScore) == "bg-green-600"
    ensures UrgencyColor(AiEngine.Fallback.urgencyScore) == "bg-green-600"
    ensures CategoryColor(AiEngine.Fallback.category) == "bg-yellow-100 text-yellow-800"
  {
    AiEngine.ZeroOrMissingScoreIsFifty(f);
  }

  /** The colour table of `getCategoryColor`. */
  const CategoryColors: map<string, string> := map[
    "Urgent" := "bg-red-100 text-red-800",
    "Devis" := "bg-blue-100 text-blue-800",
    "Facture" := "bg-green-100 text-green-800",
    "Newsletter" := "bg-gray-100 text-gray-800",
    "Personnel" := "bg-purple-100 text-purple-800",
    "Autre" := "bg-yellow-100 text-yellow-800"]

  const DefaultCategoryColor := "bg-gray-100 text-gray-800"

  /** `getCategoryColor` with the table read as a dictionary of its own entries only
      (the corrected lookup; see CategoryColorAsWritten). */
  function CategoryColor(cat: string): (r: string)
    ensures r == DefaultCategoryColor || r in CategoryColors.Values
  {
    if cat in CategoryColors then CategoryColors[cat] else DefaultCategoryColor
  }

  /** The six known categories get their table colour; anything else, including
      a different capitalisation, gets the gray default. */
  lemma CategoryColorTable(cat: string)
    ensures cat == "Urgent" ==> CategoryColor(cat) == "bg-red-100 text-red-800"
    ensures cat == "Devis" ==> CategoryColor(cat) == "bg-blue-100 text-blue-800"
    ensures cat == "Facture" ==> CategoryColor(cat) == "bg-green-100 text-green-800"
    ensures cat == "Newsletter" ==> CategoryColor(cat) == "bg-gray-100 text-gray-800"
    ensures cat == "Personnel" ==> CategoryColor(cat) == "bg-purple-100 text-purple-800"
    ensures cat == "Autre" ==> CategoryColor(cat) == "bg-yellow-100 text-yellow-800"
    ensures cat !in AiEngine.PromptCategories ==> CategoryColor(cat) == "bg-gray-100 text-gray-800"
  {
  }

  /** 'Newsletter' is drawn exactly like an unknown category: the card cannot
      tell them apart. */
  lemma DefaultColorIffUnknownOrNewsletter(cat: string)
    ensures CategoryColor(cat) == DefaultCategoryColor
        <==> cat !in ["Urgent", "Devis", "Facture", "Personnel", "Autre"]
  {
  }

  /** The lookup is exact: lower-case 'urgent' is not 'Urgent'. */
  lemma CategoryLookupIsCaseSensitive()
    ensures CategoryColor("urgent") == DefaultCategoryColor
    ensures CategoryColor("Urgent") != DefaultCategoryColor
  {
  }

  /** What `colors[cat]` yields in JavaScript, where the table is a plain object
      literal: an own entry, a member inherited from Object.prototype, or nothing. */
  datatype PropertyValue = Text(s: string) | InheritedMethod(name: string) | PrototypeObject | Undefined

  /** The members every object literal inherits from Object.prototype. */
  const InheritedMembers: seq<string> := [
    "constructor", "hasOwnProperty", "isPrototypeOf", "propertyIsEnumerable",
    "toLocaleString", "toString", "valueOf", "__defineGetter__", "__defineSetter__",
    "__lookupGetter__", "__lookupSetter__"]

  function PropertyOf(cat: string): PropertyValue {
    if cat in CategoryColors then Text(CategoryColors[cat])
    else if cat == "__proto__" then PrototypeObject
    else if cat in InheritedMembers then InheritedMethod(cat)
    else Undefined
  }

  /** `getCategoryColor` as written: `colors[cat] || default`. Every value other
      than undefined is truthy, so an inherited member is returned as it is. */
  function CategoryColorAsWritten(cat: string): (r: PropertyValue)
    ensures cat !in InheritedMembers && cat != "__proto__" ==> r == Text(CategoryColor(cat))
  {
    match PropertyOf(cat)
    case Undefined => Text(DefaultCategoryColor)
    case v => v
  }

  /** A category the model may return, 'toString', yields a function rather than
      a class string under the lookup as written, but the gray default under the
      corrected lookup. */
  lemma InheritedCategoryEscapesPalette()
    ensures !CategoryColorAsWritten("toString").Text?
    ensures !CategoryColorAsWritten("__proto__").Text?
    ensures CategoryColor("toString") == DefaultCategoryColor
  {
  }

  /** The icons of `getCategoryIcon`. */
  datatype Icon = AlertCircle | FileText | Mail | Zap

  /** `getCategoryIcon`: a switch with strict equality and a default. */
  function CategoryIcon(cat: string): Icon {
    match cat
    case "Urgent" => AlertCircle
    case "Devis" => FileText
    case "Facture" => FileText
    case "Newsletter" => Mail
    case _ => Zap
  }

  /** 'Devis' and 'Facture' share FileText, 'Urgent' gets AlertCircle,
      'Newsletter' gets Mail and every other string gets Zap. */
  lemma CategoryIconCases(cat: string)
    ensures CategoryIcon(cat) == FileText <==> cat == "Devis" || cat == "Facture"
    ensures CategoryIcon(cat) == AlertCircle <==> cat == "Urgent"
    ensures CategoryIcon(cat) == Mail <==> cat == "Newsletter"
    ensures CategoryIcon(cat) == Zap <==> cat !in ["Urgent", "Devis", "Facture", "Newsletter"]
  {
  }
}
