/**
 * The interaction log of the browser client (client/components/ActionLogger.tsx): how a clicked
 * or edited element is labelled, and how an input's value is masked or shortened.
 */
module ActionLogger {
  import opened Wrappers
  import opened Text

  /** The properties of a DOM element the logger reads; an empty string is an absent or empty
   *  property (both are falsy). */
  datatype Element = Element(
    tagName: string,
    ariaLabel: string,
    id: string,
    name: string,
    innerText: string,
    placeholder: string,
    inputType: string,
    value: string,
    role: string)

  const MaxLabel := 30
  const MaxValue := 50

  /** The first line of the element's text, trimmed. */
  function FirstLine(text: string): string {
    Trim(Split(text, "\n")[0])
  }

  /** The innerText label: the first 30 characters, with "..." only when something was cut. */
  function ShortLabel(text: string): (r: string)
    ensures |text| <= MaxLabel ==> r == text
    ensures |text| > MaxLabel ==> r == text[..MaxLabel] + "..."
    ensures |r| <= MaxLabel + 3
  {
    Take(text, MaxLabel) + (if |text| > MaxLabel then "..." else "")
  }

  /** `getElementLabel`: the first present source among aria-label, id, name, text and
   *  placeholder, else 'unknown'. */
  function ElementLabel(el: Element): (r: string)
    ensures el.ariaLabel != "" ==> r == el.ariaLabel
    ensures el.ariaLabel == "" && el.id != "" ==> r == "#" + el.id
    ensures el.ariaLabel == "" && el.id == "" && el.name != "" ==> r == "name=\"" + el.name + "\""
    ensures el.ariaLabel == "" && el.id == "" && el.name == "" && el.innerText != "" ==>
      r == ShortLabel(FirstLine(el.innerText))
    ensures el.ariaLabel == "" && el.id == "" && el.name == "" && el.innerText == "" && el.placeholder != "" ==>
      r == "placeholder=\"" + el.placeholder + "\""
    ensures el.ariaLabel == "" && el.id == "" && el.name == "" && el.innerText == "" && el.placeholder == "" ==>
      r == "unknown"
  {
    if el.ariaLabel != "" then el.ariaLabel
    else if el.id != "" then "#" + el.id
    else if el.name != "" then "name=\"" + el.name + "\""
    else if el.innerText != "" then ShortLabel(FirstLine(el.innerText))
    else if el.placeholder != "" then "placeholder=\"" + el.placeholder + "\""
    else "unknown"
  }

  /** A text label never runs past 33 characters and its text part never holds a line break. */
  lemma TextLabelShape(el: Element)
    requires el.ariaLabel == "" && el.id == "" && el.name == "" && el.innerText != ""
    ensures |ElementLabel(el)| <= MaxLabel + 3
    ensures '\n' !in Take(FirstLine(el.innerText), MaxLabel)
  {
    var line := Split(el.innerText, "\n")[0];
    SplitPiecesFree(el.innerText, "\n", 0);
    if '\n' in line {
      var i :| 0 <= i < |line| && line[i] == '\n';
      assert line[i..i + 1] == "\n";
      assert OccursAt(line, "\n", i);
    }
    TrimKeepsCharacters(line);
  }

  /** ASCII upper case to lower case, as tag names are logged. */
  function Lower(s: string): (r: string)
    ensures |r| == |s|
    ensures forall i :: 0 <= i < |s| ==> r[i] == if 'A' <= s[i] <= 'Z' then (s[i] as int + 32) as char else s[i]
  {
    if s == [] then []
    else [if 'A' <= s[0] <= 'Z' then (s[0] as int + 32) as char else s[0]] + Lower(s[1..])
  }

  /** The selector `closest` is given: buttons, links, form fields, labels and anything with
   *  the button role. HTML tag names match it whatever their case. */
  predicate Interactive(el: Element) {
    Lower(el.tagName) in InteractiveTags || el.role == "button"
  }

  const InteractiveTags: set<string> := {"button", "a", "input", "select", "textarea", "label"}

  /** `target.closest(selector)` over the path from the click target up through its
   *  ancestors: the position of the first element the selector matches. */
  function Closest(path: seq<Element>): (r: Option<nat>)
    ensures r.None? <==> forall k :: 0 <= k < |path| ==> !Interactive(path[k])
    ensures r.Some? ==> r.value < |path| && Interactive(path[r.value])
    ensures r.Some? ==> forall j :: 0 <= j < r.value ==> !Interactive(path[j])
  {
    if path == [] then None
    else if Interactive(path[0]) then Some(0)
    else match Closest(path[1..])
      case None => None
      case Some(k) => Some(k + 1)
  }

  /** A click log entry: the tag and the label of the interactive element the click landed in. */
  datatype ClickLog = ClickLog(tag: string, text: string)

  /** `handleClick`: a click outside every interactive element logs nothing; otherwise the
   *  nearest interactive element, starting at the target, is logged. */
  function ClickEntry(path: seq<Element>): (r: Option<ClickLog>)
    ensures r.None? <==> forall k :: 0 <= k < |path| ==> !Interactive(path[k])
    ensures r.Some? ==> exists k ::
      && 0 <= k < |path| && Interactive(path[k])
      && (forall j :: 0 <= j < k ==> !Interactive(path[j]))
      && r.value == ClickLog(Lower(path[k].tagName), ElementLabel(path[k]))
  {
    match Closest(path)
    case None => None
    case Some(k) => Some(ClickLog(Lower(path[k].tagName), ElementLabel(path[k])))
  }

  /** A change log entry: a password field logs only its tag. */
  datatype InputLog = Masked(tag: string) | Shown(tag: string, text: string, value: string)

  /** The logged value: cut to 50 characters plus "..." when longer. */
  function LoggedValue(val: string): (r: string)
    ensures |val| <= MaxValue ==> r == val
    ensures |val| > MaxValue ==> r == val[..MaxValue] + "..." && |r| == MaxValue + 3
  {
    if |val| > MaxValue then val[..MaxValue] + "..." else val
  }

  /** `handleChange`: only INPUT, SELECT and TEXTAREA elements are logged. */
  function ChangeEntry(el: Element): (r: Option<InputLog>)
    ensures r.Some? <==> Contains(el.tagName, "INPUT") || Contains(el.tagName, "SELECT") || Contains(el.tagName, "TEXTAREA")
    ensures r.Some? && el.inputType == "password" ==> r.value == Masked(Lower(el.tagName))
    ensures r.Some? && el.inputType != "password" ==>
      r.value == Shown(Lower(el.tagName), ElementLabel(el), LoggedValue(el.value))
  {
    if !(Contains(el.tagName, "INPUT") || Contains(el.tagName, "SELECT") || Contains(el.tagName, "TEXTAREA")) then None
    else if el.inputType == "password" then Some(Masked(Lower(el.tagName)))
    else Some(Shown(Lower(el.tagName), ElementLabel(el), LoggedValue(el.value)))
  }

  /** Nothing about a password's value reaches the log: two password fields that differ only
   *  in their value log the same entry. */
  lemma PasswordNeverLogged(el: Element, other: string)
    requires el.inputType == "password"
    ensures ChangeEntry(el) == ChangeEntry(el.(value := other))
  {
  }
}
