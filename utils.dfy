/**
 * Small helpers of the reporter: numeric and boolean renderings, the
 * test-method-name formatter, the element type names, the fixed attribute map
 * of one UI element and the mirroring of the UI element tree into a
 * view-hierarchy tree (Sources/Tauk/Utils.swift).
 */
module Utils {
  import opened Wrappers

  // ---------------------------------------------------------------------------
  // Numeric and boolean renderings
  // ---------------------------------------------------------------------------

  /** Swift's `Int(x)` on a floating-point value: truncation toward zero. */
  function TruncateToInt(x: real): (r: int)
    ensures x >= 0.0 ==> 0 <= r && r as real <= x < r as real + 1.0
    ensures x < 0.0 ==> r <= 0 && r as real - 1.0 < x <= r as real
  {
    if x >= 0.0 then x.Floor else -((-x).Floor)
  }

  function DigitChar(d: nat): (c: char)
    requires d < 10
    ensures '0' <= c <= '9'
  {
    ('0' as int + d) as char
  }

  function DigitValue(c: char): int {
    c as int - '0' as int
  }

  /** The decimal digits of `n`, most significant first, without leading zeros. */
  function Digits(n: nat): (s: string)
    ensures |s| >= 1
    ensures forall k :: 0 <= k < |s| ==> '0' <= s[k] <= '9'
    decreases n
  {
    if n < 10 then [DigitChar(n)] else Digits(n / 10) + [DigitChar(n % 10)]
  }

  /** Swift's `String(i)` for an `Int`: decimal digits, a leading `-` for negatives. */
  function IntString(i: int): string {
    if i < 0 then "-" + Digits(-i) else Digits(i)
  }

  /** The value of a string of decimal digits (reference reading of `Digits`). */
  function DigitsValue(s: string): int
    decreases |s|
  {
    if s == [] then 0 else DigitsValue(s[..|s| - 1]) * 10 + DigitValue(s[|s| - 1])
  }

  /** Reads back an optionally signed decimal numeral. */
  function ParseInt(s: string): int {
    if |s| > 0 && s[0] == '-' then -DigitsValue(s[1..]) else DigitsValue(s)
  }

  lemma {:induction false} DigitsRoundTrip(n: nat)
    ensures DigitsValue(Digits(n)) == n
    decreases n
  {
    if n >= 10 {
      DigitsRoundTrip(n / 10);
      var s := Digits(n);
      assert s[..|s| - 1] == Digits(n / 10);
    }
  }

  /** The integer renderings in the attribute map lose nothing: they read back as the integer. */
  lemma IntStringRoundTrip(i: int)
    ensures ParseInt(IntString(i)) == i
  {
    if i < 0 {
      DigitsRoundTrip(-i);
      assert IntString(i)[1..] == Digits(-i);
    } else {
      DigitsRoundTrip(i);
    }
  }

  /** Swift's `String(b)` for a `Bool`. */
  function BoolString(b: bool): (s: string)
    ensures s == "true" || s == "false"
    ensures (s == "true") <==> b
  {
    if b then "true" else "false"
  }

  // ---------------------------------------------------------------------------
  // formatTestMethodName
  // ---------------------------------------------------------------------------

  /** `s.replacingOccurrences(of: "-[", with: "")`: a single left-to-right pass. */
  function RemoveOpenMarks(s: string): (r: string)
    ensures |r| <= |s|
    decreases |s|
  {
    if |s| >= 2 && s[0] == '-' && s[1] == '[' then RemoveOpenMarks(s[2..])
    else if s == [] then []
    else [s[0]] + RemoveOpenMarks(s[1..])
  }

  /** `s.replacingOccurrences(of: "]", with: "")`. */
  function RemoveCloseMarks(s: string): (r: string)
    ensures ']' !in r
    ensures |r| <= |s|
  {
    if s == [] then []
    else (if s[0] == ']' then [] else [s[0]]) + RemoveCloseMarks(s[1..])
  }

  /** `s.components(separatedBy: " ")`: the pieces between single spaces, empty pieces kept. */
  function Components(s: string): (parts: seq<string>)
    ensures |parts| >= 1
    ensures forall k :: 0 <= k < |parts| ==> ' ' !in parts[k]
  {
    if s == [] then [""]
    else
      var rest := Components(s[1..]);
      if s[0] == ' ' then [""] + rest else [[s[0]] + rest[0]] + rest[1..]
  }

  /** Splitting adds no character: a character absent from `s` is absent from every piece. */
  lemma {:induction false} ComponentsKeepChars(s: string, k: nat, c: char)
    requires k < |Components(s)| && c !in s
    ensures c !in Components(s)[k]
  {
    if s != [] {
      var rest := Components(s[1..]);
      if s[0] == ' ' {
        if k > 0 {
          ComponentsKeepChars(s[1..], k - 1, c);
        }
      } else if k > 0 {
        ComponentsKeepChars(s[1..], k, c);
      } else {
        ComponentsKeepChars(s[1..], 0, c);
        assert Components(s)[0] == [s[0]] + rest[0];
      }
    }
  }

  /** Joins pieces with single spaces: the inverse of `Components`. */
  function Join(parts: seq<string>): string
    requires |parts| >= 1
  {
    if |parts| == 1 then parts[0] else parts[0] + " " + Join(parts[1..])
  }

  lemma {:induction false} JoinComponents(s: string)
    ensures Join(Components(s)) == s
  {
    if s != [] {
      JoinComponents(s[1..]);
      var rest := Components(s[1..]);
      if s[0] == ' ' {
        assert Components(s) == [""] + rest;
      } else if |rest| > 1 {
        assert Join(rest) == rest[0] + " " + Join(rest[1..]);
      }
    }
  }

  /** A leading character other than a space joins the first piece. */
  lemma ComponentsCons(c: char, s: string)
    requires c != ' '
    ensures Components([c] + s) == [[c] + Components(s)[0]] + Components(s)[1..]
  {
    assert ([c] + s)[1..] == s;
  }

  lemma {:induction false} ComponentsOfSpaceFree(a: string, t: string)
    requires ' ' !in a
    ensures Components(a + t) == [a + Components(t)[0]] + Components(t)[1..]
    decreases |a|
  {
    var parts := Components(t);
    if a != [] {
      var first := a[1..] + parts[0];
      var rest := Components(a[1..] + t);
      ComponentsOfSpaceFree(a[1..], t);
      assert rest[0] == first && rest[1..] == parts[1..];
      assert a + t == [a[0]] + (a[1..] + t);
      ComponentsCons(a[0], a[1..] + t);
      assert Components(a + t) == [[a[0]] + first] + parts[1..];
      assert [a[0]] + first == a + parts[0];
    } else {
      assert a + t == t;
      assert a + parts[0] == parts[0];
      assert parts == [parts[0]] + parts[1..];
    }
  }

  lemma {:induction false} ComponentsJoin(parts: seq<string>)
    requires |parts| >= 1
    requires forall k :: 0 <= k < |parts| ==> ' ' !in parts[k]
    ensures Components(Join(parts)) == parts
  {
    if |parts| == 1 {
      ComponentsOfSpaceFree(parts[0], "");
      assert parts[0] + "" == parts[0];
    } else {
      ComponentsJoin(parts[1..]);
      var tail := " " + Join(parts[1..]);
      ComponentsOfSpaceFree(parts[0], tail);
      assert tail[1..] == Join(parts[1..]);
      assert Components(tail) == [""] + parts[1..];
      assert parts[0] + " " + Join(parts[1..]) == parts[0] + tail;
      assert parts[0] + "" == parts[0];
    }
  }

  function StrippedName(raw: string): string {
    RemoveCloseMarks(RemoveOpenMarks(raw))
  }

  /**
   * The test method name out of XCTest's "-[ClassName testMethodName]": removes
   * every "-[" and "]" and takes the second space-separated piece. The source
   * indexes the pieces without a check, so a name without a space traps; that is
   * the precondition here.
   */
  function FormatTestMethodName(raw: string): (name: string)
    requires |Components(StrippedName(raw))| >= 2
    ensures ' ' !in name && ']' !in name
  {
    ComponentsKeepChars(StrippedName(raw), 1, ']');
    Components(StrippedName(raw))[1]
  }

  /** Splitting on spaces is the only way to trap: a stripped name with a space is accepted. */
  lemma FormatTestMethodNameDefinedIff(raw: string)
    ensures |Components(StrippedName(raw))| >= 2 <==> ' ' in StrippedName(raw)
  {
    var s := StrippedName(raw);
    JoinComponents(s);
    if |Components(s)| == 1 {
      assert s == Components(s)[0];
    } else {
      var parts := Components(s);
      assert Join(parts) == parts[0] + " " + Join(parts[1..]);
      assert s[|parts[0]|] == ' ';
    }
  }

  lemma {:induction false} RemoveOpenMarksNoBracket(s: string)
    requires '[' !in s
    ensures RemoveOpenMarks(s) == s
    decreases |s|
  {
    if s != [] {
      RemoveOpenMarksNoBracket(s[1..]);
      assert s == [s[0]] + s[1..];
    }
  }

  lemma {:induction false} RemoveCloseMarksAppend(a: string, b: string)
    ensures RemoveCloseMarks(a + b) == RemoveCloseMarks(a) + RemoveCloseMarks(b)
    decreases |a|
  {
    if a == [] {
      assert a + b == b;
    } else {
      var head := if a[0] == ']' then [] else [a[0]];
      var tail := a[1..];
      RemoveCloseMarksAppend(tail, b);
      calc {
        RemoveCloseMarks(a + b);
        { assert (a + b)[0] == a[0] && (a + b)[1..] == tail + b; }
        head + RemoveCloseMarks(tail + b);
        head + (RemoveCloseMarks(tail) + RemoveCloseMarks(b));
        (head + RemoveCloseMarks(tail)) + RemoveCloseMarks(b);
        RemoveCloseMarks(a) + RemoveCloseMarks(b);
      }
    }
  }

  lemma {:induction false} RemoveCloseMarksNoBracket(s: string)
    requires ']' !in s
    ensures RemoveCloseMarks(s) == s
    decreases |s|
  {
    if s != [] {
      RemoveCloseMarksNoBracket(s[1..]);
      assert s == [s[0]] + s[1..];
    }
  }

  /** "-[C m]" becomes "m" for any class and method name free of spaces and brackets. */
  lemma FormatTestMethodNameOfXCTestName(cls: string, methodName: string)
    requires ' ' !in cls && '[' !in cls && ']' !in cls
    requires ' ' !in methodName && '[' !in methodName && ']' !in methodName
    ensures |Components(StrippedName("-[" + cls + " " + methodName + "]"))| >= 2
    ensures FormatTestMethodName("-[" + cls + " " + methodName + "]") == methodName
  {
    var raw := "-[" + cls + " " + methodName + "]";
    var inner := cls + " " + methodName + "]";
    assert raw[2..] == inner;
    RemoveOpenMarksNoBracket(inner);
    assert RemoveOpenMarks(raw) == inner;
    RemoveCloseMarksAppend(cls + " " + methodName, "]");
    RemoveCloseMarksNoBracket(cls + " " + methodName);
    assert StrippedName(raw) == cls + " " + methodName;
    ComponentsJoin([cls, methodName]);
    assert Join([cls, methodName]) == cls + " " + methodName;
  }

  // ---------------------------------------------------------------------------
  // getElementTypeName
  // ---------------------------------------------------------------------------

  /** The element types the source's switch lists; every other XCUIElement type is `Unlisted`. */
  datatype ElementType =
    | ActivityIndicator | Alert | Application | Browser | Button | Cell | CheckBox
    | CollectionView | ComboBox | DatePicker | Dialog | Image | Key | Keyboard
    | LayoutArea | LayoutItem | LevelIndicator | Link | Map | Other | Popover
    | RadioButton | RadioGroup | ScrollBar | ScrollView | SearchField | SecureTextField
    | SegmentedControl | Slider | StaticText | Switch | Table | TableColumn | TableRow
    | TextField | TextView | Toggle | ValueIndicator | WebView | Window
    | Unlisted(caseName: string)

  const BaseName: string := "XCUIElementType"

  /** What `getElementTypeName` appends to "XCUIElementType" for each type. */
  function TypeSuffix(t: ElementType): (suffix: string)
    ensures |suffix| >= 3
  {
    match t
    case ActivityIndicator => "TypeActivityIndicator"
    case Alert => "TypeAlert"
    case Application => "Application"
    case Browser => "Browser"
    case Button => "Button"
    case Cell => "Cell"
    case CheckBox => "CheckBox"
    case CollectionView => "CollectionView"
    case ComboBox => "ComboBox"
    case DatePicker => "DatePicker"
    case Dialog => "Dialog"
    case Image => "Image"
    case Key => "Key"
    case Keyboard => "Keyboard"
    case LayoutArea => "LayoutArea"
    case LayoutItem => "LayoutItem"
    case LevelIndicator => "LevelIndicator"
    case Link => "Link"
    case Map => "Map"
    case Other => "Other"
    case Popover => "Popover"
    case RadioButton => "RadioButton"
    case RadioGroup => "RadioGroup"
    case ScrollBar => "ScrollBar"
    case ScrollView => "ScrollView"
    case SearchField => "SearchField"
    case SecureTextField => "SecureTextField"
    case SegmentedControl => "SegmentedControl"
    case Slider => "Slider"
    case StaticText => "StaticText"
    case Switch => "Switch"
    case Table => "Table"
    case TableColumn => "TableColumn"
    case TableRow => "TableRow"
    case TextField => "TextField"
    case TextView => "TextView"
    case Toggle => "Toggle"
    case ValueIndicator => "ValueIndicator"
    case WebView => "WebView"
    case Window => "Window"
    case Unlisted(_) => "Any"
  }

  /** `getElementTypeName`: the XCUIElementType name of a type, "XCUIElementTypeAny" for an unlisted one. */
  function ElementTypeName(t: ElementType): (name: string)
    ensures |name| > |BaseName| && name[..|BaseName|] == BaseName
    ensures t.Unlisted? ==> name == "XCUIElementTypeAny"
  {
    BaseName + TypeSuffix(t)
  }

  predicate HasDoubledType(name: string) {
    |name| >= 19 && name[..19] == "XCUIElementTypeType"
  }

  lemma NoTyFromApplication(t: ElementType)
    requires t.Application? || t.Browser? || t.Button? || t.Cell? || t.CheckBox? ||
      t.CollectionView? || t.ComboBox? || t.DatePicker? || t.Dialog? || t.Image? || t.Key? ||
      t.Keyboard? || t.LayoutArea?
    ensures TypeSuffix(t)[0] != 'T' || TypeSuffix(t)[1] != 'y'
  {
  }

  lemma NoTyFromLayoutItem(t: ElementType)
    requires t.LayoutItem? || t.LevelIndicator? || t.Link? || t.Map? || t.Other? || t.Popover? ||
      t.RadioButton? || t.RadioGroup? || t.ScrollBar? || t.ScrollView? || t.SearchField? ||
      t.SecureTextField? || t.SegmentedControl?
    ensures TypeSuffix(t)[0] != 'T' || TypeSuffix(t)[1] != 'y'
  {
  }

  lemma NoTyFromSlider(t: ElementType)
    requires t.Slider? || t.StaticText? || t.Switch? || t.Table? || t.TableColumn? ||
      t.TableRow? || t.TextField? || t.TextView? || t.Toggle? || t.ValueIndicator? || t.WebView? ||
      t.Window? || t.Unlisted?
    ensures TypeSuffix(t)[0] != 'T' || TypeSuffix(t)[1] != 'y'
  {
  }

  /** Only the suffixes of activity indicators and alerts begin with "Ty"... */
  lemma SuffixStartsWithTy(t: ElementType)
    ensures TypeSuffix(t)[0] == 'T' && TypeSuffix(t)[1] == 'y' <==> t == ActivityIndicator || t == Alert
  {
    if t == ActivityIndicator || t == Alert {
      SuffixStartsWithType(t);
    } else if t.LayoutItem? || t.LevelIndicator? || t.Link? || t.Map? || t.Other? || t.Popover? || t.RadioButton?
      || t.RadioGroup? || t.ScrollBar? || t.ScrollView? || t.SearchField? || t.SecureTextField? || t.SegmentedControl? {
      NoTyFromLayoutItem(t);
    } else if t.Slider? || t.StaticText? || t.Switch? || t.Table? || t.TableColumn? || t.TableRow? || t.TextField?
      || t.TextView? || t.Toggle? || t.ValueIndicator? || t.WebView? || t.Window? || t.Unlisted? {
      NoTyFromSlider(t);
    } else {
      NoTyFromApplication(t);
    }
  }

  /** ... and those begin with "Type". */
  lemma SuffixStartsWithType(t: ElementType)
    requires t == ActivityIndicator || t == Alert
    ensures |TypeSuffix(t)| >= 4 && TypeSuffix(t)[..4] == "Type"
  {
  }

  /** Whether a name built on "XCUIElementType" doubles "Type" depends on its suffix alone. */
  lemma DoubledBySuffix(suffix: string)
    requires |suffix| >= 3
    ensures HasDoubledType(BaseName + suffix) ==> suffix[0] == 'T' && suffix[1] == 'y'
    ensures |suffix| >= 4 && suffix[..4] == "Type" ==> HasDoubledType(BaseName + suffix)
  {
    var name := BaseName + suffix;
    var doubled := "XCUIElementTypeType";
    assert doubled == BaseName + "Type";
    if |suffix| >= 4 && suffix[..4] == "Type" {
      assert name[..19] == BaseName + suffix[..4];
    }
    if HasDoubledType(name) {
      assert name[..19][15] == suffix[0] && name[..19][16] == suffix[1];
      assert doubled[15] == 'T' && doubled[16] == 'y';
    }
  }

  /** Exactly two names carry a doubled "Type": activity indicators and alerts. */
  lemma DoubledTypeExactly(t: ElementType)
    ensures HasDoubledType(ElementTypeName(t)) <==> (t == ActivityIndicator || t == Alert)
  {
    SuffixStartsWithTy(t);
    if t == ActivityIndicator || t == Alert {
      SuffixStartsWithType(t);
    }
    DoubledBySuffix(TypeSuffix(t));
  }

  // ---------------------------------------------------------------------------
  // getElementAttributes and getViewHierarchy
  // ---------------------------------------------------------------------------

  datatype Frame = Frame(x: real, y: real, width: real, height: real)

  /** A snapshot of one XCUIElement as the driver reports it, with its children in enumeration order. */
  datatype Element = Element(
    elementType: ElementType,
    title: string,
    identifier: string,
    accessibilityLabel: string,
    placeholderValue: Option<string>,
    isHittable: bool,
    isEnabled: bool,
    isSelected: bool,
    frame: Frame,
    children: seq<Element>)

  /** One node of the view-hierarchy document: a tag name, string attributes and child nodes. */
  datatype ViewNode = ViewNode(name: string, attributes: map<string, string>, children: seq<ViewNode>)

  const AttributeKeys: set<string> := {
    "type", "title", "identifier", "label", "placeholderValue",
    "isHittable", "isEnabled", "isSelected", "x", "y", "width", "height" }

  /** `getElementAttributes`: the twelve attributes of one element's node, all as strings. */
  function ElementAttributes(e: Element): map<string, string> {
    map[
      "type" := ElementTypeName(e.elementType),
      "title" := e.title,
      "identifier" := e.identifier,
      "label" := e.accessibilityLabel,
      "placeholderValue" := e.placeholderValue.GetOr(""),
      "isHittable" := BoolString(e.isHittable),
      "isEnabled" := BoolString(e.isEnabled),
      "isSelected" := BoolString(e.isSelected),
      "x" := IntString(TruncateToInt(e.frame.x)),
      "y" := IntString(TruncateToInt(e.frame.y)),
      "width" := IntString(TruncateToInt(e.frame.width)),
      "height" := IntString(TruncateToInt(e.frame.height))
    ]
  }

  lemma AttributeKeysCount()
    ensures |AttributeKeys| == 12
  {
  }

  /** Every node carries exactly the twelve attributes. */
  lemma ElementAttributesKeys(e: Element)
    ensures ElementAttributes(e).Keys == AttributeKeys
  {
  }

  /** The type name and the texts as the element reports them, an absent placeholder as the empty string. */
  lemma ElementAttributesTexts(e: Element)
    ensures var attrs := ElementAttributes(e);
      && attrs["type"] == ElementTypeName(e.elementType)
      && attrs["title"] == e.title && attrs["identifier"] == e.identifier && attrs["label"] == e.accessibilityLabel
      && (e.placeholderValue.None? ==> attrs["placeholderValue"] == "")
      && (e.placeholderValue.Some? ==> attrs["placeholderValue"] == e.placeholderValue.value)
  {
    var attrs := ElementAttributes(e);
    assert attrs["type"] == ElementTypeName(e.elementType);
    assert attrs["title"] == e.title;
    assert attrs["identifier"] == e.identifier;
    assert attrs["label"] == e.accessibilityLabel;
    assert attrs["placeholderValue"] == e.placeholderValue.GetOr("");
  }

  /** The three flags as "true" or "false". */
  lemma ElementAttributesFlags(e: Element)
    ensures var attrs := ElementAttributes(e);
      && attrs["isHittable"] in {"true", "false"} && (attrs["isHittable"] == "true" <==> e.isHittable)
      && attrs["isEnabled"] in {"true", "false"} && (attrs["isEnabled"] == "true" <==> e.isEnabled)
      && attrs["isSelected"] in {"true", "false"} && (attrs["isSelected"] == "true" <==> e.isSelected)
  {
    var attrs := ElementAttributes(e);
    assert attrs["isHittable"] == BoolString(e.isHittable);
    assert attrs["isEnabled"] == BoolString(e.isEnabled);
    assert attrs["isSelected"] == BoolString(e.isSelected);
  }

  /** The geometry attributes read back as the truncated frame values. */
  lemma ElementAttributesGeometry(e: Element)
    ensures ParseInt(ElementAttributes(e)["x"]) == TruncateToInt(e.frame.x)
    ensures ParseInt(ElementAttributes(e)["y"]) == TruncateToInt(e.frame.y)
    ensures ParseInt(ElementAttributes(e)["width"]) == TruncateToInt(e.frame.width)
    ensures ParseInt(ElementAttributes(e)["height"]) == TruncateToInt(e.frame.height)
  {
    var attrs := ElementAttributes(e);
    assert attrs["x"] == IntString(TruncateToInt(e.frame.x));
    assert attrs["y"] == IntString(TruncateToInt(e.frame.y));
    assert attrs["width"] == IntString(TruncateToInt(e.frame.width));
    assert attrs["height"] == IntString(TruncateToInt(e.frame.height));
    IntStringRoundTrip(TruncateToInt(e.frame.x));
    IntStringRoundTrip(TruncateToInt(e.frame.y));
    IntStringRoundTrip(TruncateToInt(e.frame.width));
    IntStringRoundTrip(TruncateToInt(e.frame.height));
  }

  /** Reference definition of the mirrored tree: one node per element, children in the same order. */
  function ViewOf(e: Element): ViewNode
    decreases e, 1, 0
  {
    ViewNode(ElementTypeName(e.elementType), ElementAttributes(e), ChildViews(e, 0))
  }

  /** The mirrors of the children of `e` from index `k` on. */
  function ChildViews(e: Element, k: nat): (vs: seq<ViewNode>)
    requires k <= |e.children|
    ensures |vs| == |e.children| - k
    decreases e, 0, |e.children| - k
  {
    if k == |e.children| then [] else [ViewOf(e.children[k])] + ChildViews(e, k + 1)
  }

  /** Dropping the first `k` children of the mirror leaves the mirrors of the children from `k` on. */
  lemma {:induction false} ChildViewsSuffix(e: Element, k: nat)
    requires k <= |e.children|
    ensures ChildViews(e, 0)[k..] == ChildViews(e, k)
  {
    if k > 0 {
      ChildViewsSuffix(e, k - 1);
      var vs := ChildViews(e, k - 1);
      assert vs == [ViewOf(e.children[k - 1])] + ChildViews(e, k);
      assert ChildViews(e, 0)[k..] == vs[1..];
    }
  }

  /** Taking the next child's mirror off the remaining ones. */
  lemma ChildViewsStep(parent: Element, i: nat, done: seq<ViewNode>)
    requires i < |parent.children|
    ensures done + ChildViews(parent, i) == (done + [ViewOf(parent.children[i])]) + ChildViews(parent, i + 1)
  {
    assert ChildViews(parent, i) == [ViewOf(parent.children[i])] + ChildViews(parent, i + 1);
  }

  /**
   * `traverseElementTree`: for each child of `parent`, in enumeration order, adds
   * a node and, when the child has children of its own, fills that node by
   * recursion. Returns the nodes added under `parent`'s node.
   */
  method TraverseElementTree(parent: Element) returns (body: seq<ViewNode>)
    ensures body == ViewOf(parent).children
    decreases parent
  {
    body := [];
    for i := 0 to |parent.children|
      invariant body + ChildViews(parent, i) == ChildViews(parent, 0)
    {
      var element := parent.children[i];
      var grandChildren := [];
      if |element.children| > 0 {
        grandChildren := TraverseElementTree(element);
      }
      var node := ViewNode(ElementTypeName(element.elementType), ElementAttributes(element), grandChildren);
      ChildViewsStep(parent, i, body);
      body := body + [node];
    }
    assert body + [] == body;
  }

  /** `getViewHierarchy`: the application-rooted document mirroring the element tree. */
  method GetViewHierarchy(app: Element) returns (root: ViewNode)
    ensures root == ViewOf(app)
    ensures NodeCount(root) == ElementCount(app)
  {
    var children := TraverseElementTree(app);
    root := ViewNode(ElementTypeName(app.elementType), ElementAttributes(app), children);
    MirrorPreorder(app);
  }

  // Preorder enumerations of both trees, for stating that the mirror adds one
  // node per element, in enumeration order, with nothing filtered out.

  function Preorder(e: Element): seq<Element>
    decreases e, 1, 0
  {
    [e] + PreorderFrom(e, 0)
  }

  function PreorderFrom(e: Element, k: nat): seq<Element>
    decreases e, 0, |e.children| - k
  {
    if k >= |e.children| then [] else Preorder(e.children[k]) + PreorderFrom(e, k + 1)
  }

  function ViewPreorder(v: ViewNode): seq<ViewNode>
    decreases v, 1, 0
  {
    [v] + ViewPreorderFrom(v, 0)
  }

  function ViewPreorderFrom(v: ViewNode, k: nat): seq<ViewNode>
    decreases v, 0, |v.children| - k
  {
    if k >= |v.children| then [] else ViewPreorder(v.children[k]) + ViewPreorderFrom(v, k + 1)
  }

  function ElementCount(e: Element): nat {
    |Preorder(e)|
  }

  function NodeCount(v: ViewNode): nat {
    |ViewPreorder(v)|
  }

  /** The mirrors of a list of elements, in the same order. */
  function Mirrored(es: seq<Element>): (vs: seq<ViewNode>)
    ensures |vs| == |es|
  {
    if es == [] then [] else [ViewOf(es[0])] + Mirrored(es[1..])
  }

  lemma {:induction false} MirroredAppend(a: seq<Element>, b: seq<Element>)
    ensures Mirrored(a + b) == Mirrored(a) + Mirrored(b)
  {
    if a == [] {
      assert a + b == b;
    } else {
      assert (a + b)[0] == a[0] && (a + b)[1..] == a[1..] + b;
      MirroredAppend(a[1..], b);
    }
  }

  /**
   * The mirror is faithful node for node: enumerating the view tree in preorder
   * gives exactly the mirrors of the elements in preorder.
   */
  lemma {:induction false} MirrorPreorder(e: Element)
    ensures ViewPreorder(ViewOf(e)) == Mirrored(Preorder(e))
    decreases e, 1, 0
  {
    MirrorPreorderFrom(e, 0);
    MirroredAppend([e], PreorderFrom(e, 0));
    assert Mirrored([e]) == [ViewOf(e)];
  }

  lemma {:induction false} MirrorPreorderFrom(e: Element, k: nat)
    ensures ViewPreorderFrom(ViewOf(e), k) == Mirrored(PreorderFrom(e, k))
    decreases e, 0, |e.children| - k
  {
    if k < |e.children| {
      ChildViewsSuffix(e, k);
      assert ViewOf(e).children[k] == ChildViews(e, k)[0];
      MirrorPreorder(e.children[k]);
      MirrorPreorderFrom(e, k + 1);
      MirroredAppend(Preorder(e.children[k]), PreorderFrom(e, k + 1));
    }
  }
}
