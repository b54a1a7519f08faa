/** The portal shell: which page a page key renders, the light/dark theme
    switch, the keys the header and the capability cards navigate to, and
    the arithmetic of the animated statistics counter. */
module Portal {
  import opened Wrappers
  import opened JsBuiltins

  /** The pages `renderPage` can show. */
  datatype Page =
    | Home
    | AiAssistant
    | KnowledgeGraphView
    | DataVisualization
    | ProductCatalog
    | SatelliteTracker
    | MissionExplorer

  /** The keys `renderPage` recognises, one per page. */
  const PageKeys: seq<string> := [
    "home", "aiassistant", "knowledgegraph", "datavisualization",
    "productcatalog", "livesatellitetracker", "missionexplorer"
  ]

  /** The key that selects page `p`. */
  function PageKey(p: Page): string {
    match p
    case Home => "home"
    case AiAssistant => "aiassistant"
    case KnowledgeGraphView => "knowledgegraph"
    case DataVisualization => "datavisualization"
    case ProductCatalog => "productcatalog"
    case SatelliteTracker => "livesatellitetracker"
    case MissionExplorer => "missionexplorer"
  }

  /** `renderPage`: the page for a key, home for every other string. */
  function RenderPage(key: string): Page {
    if key == "home" then Home
    else if key == "aiassistant" then AiAssistant
    else if key == "knowledgegraph" then KnowledgeGraphView
    else if key == "datavisualization" then DataVisualization
    else if key == "productcatalog" then ProductCatalog
    else if key == "livesatellitetracker" then SatelliteTracker
    else if key == "missionexplorer" then MissionExplorer
    else Home
  }

  /** Each recognised key selects its own page, and only that key does; any
      other key falls back to home. */
  lemma RenderPageDispatch(p: Page, key: string)
    ensures PageKey(p) in PageKeys
    ensures RenderPage(PageKey(p)) == p
    ensures RenderPage(key) != Home ==> key == PageKey(RenderPage(key))
    ensures key !in PageKeys ==> RenderPage(key) == Home
  {
  }

  /** The theme after `toggleTheme`. */
  function NextTheme(theme: string): string {
    if theme == "light" then "dark" else "light"
  }

  /** Light and dark swap; any other value becomes light; so toggling twice
      from light or from dark restores it. */
  lemma NextThemeSwaps(theme: string)
    ensures NextTheme(theme) == "light" || NextTheme(theme) == "dark"
    ensures theme == "light" ==> NextTheme(theme) == "dark"
    ensures theme != "light" ==> NextTheme(theme) == "light"
    ensures theme == "light" || theme == "dark" ==>
      NextTheme(theme) != theme && NextTheme(NextTheme(theme)) == theme
  {
  }

  /** The header's navigation labels. */
  const NavLabels: seq<string> := ["AI Assistant", "Knowledge Graph", "Data Visualization", "Product Catalog"]

  /** The key a navigation label leads to: lower case, every space removed. */
  function NavKey(navLabel: string): string {
    RemoveAll(ToLowerCase(navLabel), ' ')
  }

  predicate HasUpperAscii(s: string) {
    exists i :: 0 <= i < |s| && 'A' <= s[i] <= 'Z'
  }

  lemma ToLowerCaseOfLower(s: string)
    requires !HasUpperAscii(s)
    ensures ToLowerCase(s) == s
  {
  }

  /** A navigation key holds no space and no upper-case letter, so deriving
      a key from a key gives it back. */
  lemma NavKeyNormalised(navLabel: string)
    ensures ' ' !in NavKey(navLabel)
    ensures !HasUpperAscii(NavKey(navLabel))
    ensures NavKey(NavKey(navLabel)) == NavKey(navLabel)
  {
    var lower := ToLowerCase(navLabel);
    var k := NavKey(navLabel);
    forall i | 0 <= i < |k|
      ensures !('A' <= k[i] <= 'Z')
    {
      var c := k[i];
      assert c in multiset(k);
      RemoveAllKeepsOthers(lower, ' ');
      assert multiset(lower)[c] == multiset(k)[c];
      assert c in multiset(lower);
      var j :| 0 <= j < |lower| && lower[j] == c;
    }
    ToLowerCaseOfLower(k);
    RemoveAllAbsent(k, ' ');
  }

  lemma ToLowerCaseAppend(a: string, b: string)
    ensures ToLowerCase(a + b) == ToLowerCase(a) + ToLowerCase(b)
  {
  }

  lemma LowerCaseKeepsSpaces(s: string)
    ensures ' ' in ToLowerCase(s) <==> ' ' in s
  {
    var t := ToLowerCase(s);
    if ' ' in t {
      var i :| 0 <= i < |t| && t[i] == ' ';
      assert s[i] == ' ';
    }
    if ' ' in s {
      var i :| 0 <= i < |s| && s[i] == ' ';
      assert t[i] == ' ';
    }
  }

  lemma RemoveAllOfJoin(a: string, c: char, b: string)
    requires c !in a && c !in b
    ensures RemoveAll(a + [c] + b, c) == a + b
  {
    calc {
      RemoveAll(a + [c] + b, c);
    == { RemoveAllAppend(a + [c], b, c); RemoveAllAppend(a, [c], c); }
      RemoveAll(a, c) + RemoveAll([c], c) + RemoveAll(b, c);
    == { RemoveAllAbsent(a, c); RemoveAllAbsent(b, c); assert RemoveAll([c], c) == []; }
      a + [] + b;
    ==
      a + b;
    }
  }

  /** A label of two words separated by one space leads to the two words
      in lower case, joined. */
  lemma NavKeyOfTwoWords(navLabel: string, first: string, second: string)
    requires navLabel == first + " " + second
    requires ' ' !in first && ' ' !in second
    ensures NavKey(navLabel) == ToLowerCase(first) + ToLowerCase(second)
  {
    var a, b := ToLowerCase(first), ToLowerCase(second);
    assert ToLowerCase(navLabel) == a + [' '] + b by {
      ToLowerCaseAppend(first + " ", second);
      ToLowerCaseAppend(first, " ");
    }
    LowerCaseKeepsSpaces(first);
    LowerCaseKeepsSpaces(second);
    RemoveAllOfJoin(a, ' ', b);
  }

  /** `ToLowerCase` as a character-by-character check. */
  lemma LowerCaseWord(word: string, lower: string)
    requires |word| == |lower| && forall i :: 0 <= i < |word| ==> ToLowerChar(word[i]) == lower[i]
    ensures ToLowerCase(word) == lower
  {
  }

  /** The label is a parameter equal to the constant so that the solver
      does not unfold the label list in every step. */
  lemma NavKeyOfAiAssistant(navLabel: string)
    requires navLabel == NavLabels[0]
    ensures NavKey(navLabel) == "aiassistant"
  {
    LowerCaseAiAssistant();
    NavKeyOfTwoWords(navLabel, "AI", "Assistant");
  }

  lemma LowerCaseAiAssistant()
    ensures ToLowerCase("AI") + ToLowerCase("Assistant") == "aiassistant"
  {
    LowerCaseWord("AI", "ai");
    LowerCaseWord("Assistant", "assistant");
  }

  /** The label is a parameter equal to the constant so that the solver
      does not unfold the label list in every step. */
  lemma NavKeyOfKnowledgeGraph(navLabel: string)
    requires navLabel == NavLabels[1]
    ensures NavKey(navLabel) == "knowledgegraph"
  {
    LowerCaseKnowledgeGraph();
    NavKeyOfTwoWords(navLabel, "Knowledge", "Graph");
  }

  lemma LowerCaseKnowledgeGraph()
    ensures ToLowerCase("Knowledge") + ToLowerCase("Graph") == "knowledgegraph"
  {
    LowerCaseWord("Knowledge", "knowledge");
    LowerCaseWord("Graph", "graph");
  }

  /** The label is a parameter equal to the constant so that the solver
      does not unfold the label list in every step. */
  lemma NavKeyOfDataVisualization(navLabel: string)
    requires navLabel == NavLabels[2]
    ensures NavKey(navLabel) == "datavisualization"
  {
    LowerCaseDataVisualization();
    NavKeyOfTwoWords(navLabel, "Data", "Visualization");
  }

  lemma LowerCaseDataVisualization()
    ensures ToLowerCase("Data") + ToLowerCase("Visualization") == "datavisualization"
  {
    LowerCaseWord("Data", "data");
    LowerCaseWord("Visualization", "visualization");
  }

  /** The label is a parameter equal to the constant so that the solver
      does not unfold the label list in every step. */
  lemma NavKeyOfProductCatalog(navLabel: string)
    requires navLabel == NavLabels[3]
    ensures NavKey(navLabel) == "productcatalog"
  {
    LowerCaseProductCatalog();
    NavKeyOfTwoWords(navLabel, "Product", "Catalog");
  }

  lemma LowerCaseProductCatalog()
    ensures ToLowerCase("Product") + ToLowerCase("Catalog") == "productcatalog"
  {
    LowerCaseWord("Product", "product");
    LowerCaseWord("Catalog", "catalog");
  }

  /** The page each header button leads to, in button order. */
  const NavPages: seq<Page> := [AiAssistant, KnowledgeGraphView, DataVisualization, ProductCatalog]

  /** The four header buttons lead to the assistant, the graph, the charts
      and the catalog, none of them to the home fallback. */
  lemma NavLabelsRecognised(i: nat)
    requires i < |NavLabels|
    ensures NavKey(NavLabels[i]) in PageKeys
    ensures RenderPage(NavKey(NavLabels[i])) == NavPages[i] != Home
  {
    var navLabel := NavLabels[i];
    var page := NavPages[i];
    if i == 0 {
      NavKeyOfAiAssistant(navLabel);
    } else if i == 1 {
      NavKeyOfKnowledgeGraph(navLabel);
    } else if i == 2 {
      NavKeyOfDataVisualization(navLabel);
    } else {
      NavKeyOfProductCatalog(navLabel);
    }
    assert NavKey(navLabel) == PageKey(page);
    RenderPageDispatch(page, "");
  }

  /** The `pageName` of each capability card, in card order. */
  const CapabilityPageNames: seq<string> := [
    "aiassistant", "knowledgegraph", "datavisualization",
    "productcatalog", "livesatellitetracker", "missionexplorer"
  ]

  /** Every card leads to a recognised key, and the six cards reach the six
      pages other than home. */
  lemma CapabilityPagesRecognised()
    ensures forall i :: 0 <= i < |CapabilityPageNames| ==>
      CapabilityPageNames[i] in PageKeys && RenderPage(CapabilityPageNames[i]) != Home
    ensures seq(|CapabilityPageNames|, i requires 0 <= i < |CapabilityPageNames| => RenderPage(CapabilityPageNames[i]))
         == [AiAssistant, KnowledgeGraphView, DataVisualization, ProductCatalog, SatelliteTracker, MissionExplorer]
  {
  }

  /** The application shell: the current page key and the theme. */
  class App {
    var page: string
    var theme: string

    /** The page on screen. */
    function Rendered(): Page
      reads this
    {
      RenderPage(page)
    }

    constructor ()
      ensures page == "home" && theme == "light"
      ensures Rendered() == Home
    {
      page := "home";
      theme := "light";
    }

    /** `toggleTheme`: the page stays. */
    method ToggleTheme()
      modifies this
      ensures theme == NextTheme(old(theme)) && page == old(page)
    {
      theme := if theme == "light" then "dark" else "light";
    }

    /** `setPage(key)`, as called by the logo, the header buttons and the
      cards: the theme stays. */
    method SetPage(key: string)
      modifies this
      ensures page == key && theme == old(theme)
      ensures key !in PageKeys ==> Rendered() == Home
    {
      page := key;
    }
  }

  // ---------------------------------------------------------------------
  // The animated counter

  /** The default animation length, in milliseconds. */
  const DefaultDuration: real := 2000.0

  /** The targets of the statistics section. */
  const StatTargets: seq<int> := [127, 2847, 15432]

  /** The animation target: the value's text with commas removed, read by
      `parseInt`; `None` stands for `NaN`. */
  function TargetOf(end: int): Option<int> {
    ParseInt(RemoveAll(IntToString(end), ','))
  }

  /** For an integer value the parse gives the value back. */
  lemma TargetIsEnd(end: int)
    ensures TargetOf(end) == Some(end)
  {
    StripCommasOfIntToString(end);
    ParseIntToString(end);
  }

  /** The fraction of the animation done after `elapsed` milliseconds. */
  function Progress(elapsed: real, duration: real): real
    requires duration > 0.0
  {
    var p := elapsed / duration;
    if p < 1.0 then p else 1.0
  }

  /** The count shown at a given progress: the floor of the same fraction of
      the target, counting from 0. */
  function CountAt(progress: real, endValue: int): int {
    (progress * endValue as real).Floor
  }

  /** From the first frame on, progress lies in [0, 1], grows with time and
      reaches 1 exactly when the duration has elapsed. */
  lemma ProgressBounds(elapsed: real, later: real, duration: real)
    requires duration > 0.0 && 0.0 <= elapsed <= later
    ensures 0.0 <= Progress(elapsed, duration) <= 1.0
    ensures Progress(elapsed, duration) <= Progress(later, duration)
    ensures Progress(elapsed, duration) == 1.0 <==> elapsed >= duration
  {
    assert elapsed / duration <= later / duration;
    assert elapsed >= duration <==> elapsed / duration >= 1.0;
  }

  /** For a non-negative target the count stays within [0, target], never
      decreases as progress grows, and equals a positive target exactly when
      progress is 1. */
  lemma CountBounds(p: real, q: real, endValue: int)
    requires 0.0 <= p <= q <= 1.0 && endValue >= 0
    ensures 0 <= CountAt(p, endValue) <= CountAt(q, endValue) <= endValue
    ensures endValue > 0 ==> (CountAt(p, endValue) == endValue <==> p == 1.0)
  {
    CountWithin(p, q, endValue);
    if p < 1.0 && endValue > 0 {
      CountBelowEnd(p, endValue);
    } else if p == 1.0 {
      CountAtEnd(endValue);
    }
  }

  /** Counts for progress `p <= q` are ordered and within [0, target]. */
  lemma CountWithin(p: real, q: real, endValue: int)
    requires 0.0 <= p <= q <= 1.0 && endValue >= 0
    ensures 0 <= CountAt(p, endValue) <= CountAt(q, endValue) <= endValue
  {
    var e := endValue as real;
    assert 0.0 <= p * e <= q * e <= e by {
      assert q * e - p * e == (q - p) * e;
      assert e - q * e == (1.0 - q) * e;
    }
  }

  /** Before the end the count stays below a positive target. */
  lemma CountBelowEnd(p: real, endValue: int)
    requires 0.0 <= p < 1.0 && endValue > 0
    ensures CountAt(p, endValue) < endValue
  {
    var e := endValue as real;
    assert p * e < e by {
      assert e - p * e == (1.0 - p) * e;
    }
  }

  /** At the end the count is the target. */
  lemma CountAtEnd(endValue: int)
    ensures CountAt(1.0, endValue) == endValue
  {
  }

  /** The counter's state: its props (`end`, `duration`), the parsed target,
      the start time (`null` and 0 are both falsy, so 0 stands for "not
      started"), the count on screen, whether a frame callback is scheduled
      and whether the visibility observer is still connected. */
  datatype CounterState = CounterState(
    end: int,
    duration: real,
    endValue: int,
    startTime: real,
    count: int,
    frameRequested: bool,
    observing: bool)

  /** The hook before the element is seen. */
  function CounterInit(end: int, duration: real): CounterState {
    CounterState(end, duration, 0, 0.0, 0, false, true)
  }

  /** The observer callback when the element becomes visible: a target of 0
      returns early and keeps observing; any other target schedules the
      first frame and disconnects the observer. */
  function Intersect(s: CounterState): CounterState {
    if !s.observing then s
    else
      TargetIsEnd(s.end);
      var endValue := TargetOf(s.end).value;
      if endValue == 0 then s
      else s.(endValue := endValue, startTime := 0.0, frameRequested := true, observing := false)
  }

  /** The start time a frame at `timestamp` uses. */
  function StartFor(s: CounterState, timestamp: real): real {
    if s.startTime == 0.0 then timestamp else s.startTime
  }

  /** One animation frame at `timestamp`: fix the start time on the first
      frame, show the floored count and schedule another frame while
      progress is below 1. */
  function Frame(s: CounterState, timestamp: real): CounterState
    requires s.frameRequested && s.duration > 0.0
  {
    var start := StartFor(s, timestamp);
    var progress := Progress(timestamp - start, s.duration);
    s.(startTime := start, count := CountAt(progress, s.endValue), frameRequested := progress < 1.0)
  }

  /** A zero target starts no animation; any other target is the value
      itself and starts one. */
  lemma IntersectStarts(s: CounterState)
    requires s.observing
    ensures s.end == 0 ==> Intersect(s) == s
    ensures s.end != 0 ==> var t := Intersect(s);
      t.endValue == s.end && t.frameRequested && !t.observing && t.startTime == 0.0 && t.count == s.count
  {
    TargetIsEnd(s.end);
  }

  /** Each counter of the statistics section, created with the default
      duration, starts animating towards its own value when first seen; the
      values lie in the range `toString` writes in plain decimal. */
  lemma StatCountersStart(k: nat)
    requires k < |StatTargets|
    ensures PlainDecimal(StatTargets[k]) && StatTargets[k] != 0
    ensures var t := Intersect(CounterInit(StatTargets[k], DefaultDuration));
      && t.endValue == StatTargets[k] && t.frameRequested && !t.observing
      && t.duration > 0.0
  {
    IntersectStarts(CounterInit(StatTargets[k], DefaultDuration));
  }

  /** A frame at a time no earlier than the start shows a count in
      [0, target] for a non-negative target, and for a positive target stops
      rescheduling exactly when the count has reached the target. */
  lemma FrameCount(s: CounterState, timestamp: real)
    requires s.frameRequested && s.duration > 0.0 && s.endValue >= 0
    requires s.startTime == 0.0 || s.startTime <= timestamp
    ensures 0 <= Frame(s, timestamp).count <= s.endValue
    ensures s.endValue > 0 ==> (!Frame(s, timestamp).frameRequested <==> Frame(s, timestamp).count == s.endValue)
  {
    var start := StartFor(s, timestamp);
    var progress := Progress(timestamp - start, s.duration);
    ProgressBounds(timestamp - start, timestamp - start, s.duration);
    CountBounds(progress, 1.0, s.endValue);
  }

  /** Two frames in time order never lower the count, and a first frame at
      a positive time fixes the start time for the rest of the animation. */
  lemma FramesNeverCountDown(s: CounterState, t1: real, t2: real)
    requires s.frameRequested && s.duration > 0.0 && s.endValue >= 0
    requires s.startTime == 0.0 || s.startTime <= t1
    requires 0.0 < t1 <= t2 && Frame(s, t1).frameRequested
    ensures Frame(Frame(s, t1), t2).startTime == Frame(s, t1).startTime
    ensures Frame(s, t1).count <= Frame(Frame(s, t1), t2).count
  {
    var start := StartFor(s, t1);
    var s1 := Frame(s, t1);
    var p1 := Progress(t1 - start, s.duration);
    var p2 := Progress(t2 - start, s.duration);
    assert start != 0.0 && start <= t1;
    assert s1.startTime == start && s1.count == CountAt(p1, s.endValue);
    assert s1.endValue == s.endValue && s1.duration == s.duration;
    assert StartFor(s1, t2) == start;
    assert Frame(s1, t2).count == CountAt(p2, s.endValue);
    ProgressBounds(t1 - start, t2 - start, s.duration);
    CountBounds(p1, p2, s.endValue);
  }

  /** `useAnimatedCounter(end, duration)`: the state the hook keeps across
      the observer and frame callbacks. */
  class AnimatedCounter {
    var end: int
    var duration: real
    var endValue: int
    var startTime: real
    var count: int
    var frameRequested: bool
    var observing: bool

    function State(): CounterState
      reads this
    {
      CounterState(end, duration, endValue, startTime, count, frameRequested, observing)
    }

    constructor (end: int, duration: real)
      ensures State() == CounterInit(end, duration)
    {
      this.end := end;
      this.duration := duration;
      endValue := 0;
      startTime := 0.0;
      count := 0;
      frameRequested := false;
      observing := true;
    }

    /** The observer callback for a visible element. */
    method OnIntersect()
      requires observing
      modifies this
      ensures State() == Intersect(old(State()))
    {
      var parsed := TargetOf(end);
      TargetIsEnd(end);
      var target := parsed.value;
      if target == 0 {
        return;
      }
      endValue := target;
      startTime := 0.0;
      frameRequested := true;
      observing := false;
    }

    /** The scheduled frame callback `step(timestamp)`. */
    method Step(timestamp: real)
      requires frameRequested && duration > 0.0
      modifies this
      ensures State() == Frame(old(State()), timestamp)
    {
      frameRequested := false;
      if startTime == 0.0 {
        startTime := timestamp;
      }
      var progress := (timestamp - startTime) / duration;
      if progress > 1.0 {
        progress := 1.0;
      }
      count := (progress * endValue as real).Floor;
      if progress < 1.0 {
        frameRequested := true;
      }
    }
  }
}
