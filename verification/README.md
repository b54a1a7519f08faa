# MOSDAC AI Portal — a verified model of its view logic

The MOSDAC AI Portal is a React single-page demo. It has a home page, an AI chat
assistant, a knowledge-graph explorer and a data-visualisation page with a line
chart and a pie chart. Almost all of it is markup. The logic that decides what
is drawn and what state the pages are in is modelled here in Dafny and proved:

- **Line chart** (`LineChart`): the two affine scales `xScale` and `yScale`, the
  path of `M`/`L` commands through the monthly user counts, the grid lines and
  the month labels. Coordinates are exact reals; paths are sequences of command
  records rather than formatted strings.
- **Pie chart** (`PieChart`): the `total` fold, and the render loop that threads
  `cumulative` through `getPath`. `DrawPie` is that loop, proved to produce
  `Wedges`, the per-slice specification. The wedges tile the full turn
  [0°, 360°] with no gap or overlap. At most one wedge has the large-arc flag.
  Hovering changes only the radius.
- **Chat assistant** (`Chatbot`): the page state (message log, `isTyping`, input
  buffer) and `handleSendMessage`. The reply callback is an explicit
  `ReplyReady` step instead of a timer. The component is the class
  `ChatbotPage`, whose methods are proved against the functions `Send`, `Reply`
  and `Step`. Those functions carry the properties: blank input is a no-op, the
  log is append-only, and ids equal positions in every reachable state. The
  last holds because of the disabled submit button. `SendWhileTypingRepeatsId`
  shows what happens without that gate.
- **Portal shell** (`Portal`):
  - `renderPage` dispatch with its home fallback.
  - `toggleTheme`.
  - The header's navigation key (lower case, spaces removed) and the capability
    cards' page names.
  - The `useAnimatedCounter` hook. `TargetOf` is its parse of the target.
    `AnimatedCounter` is its per-frame step as a class, proved against the
    `Intersect` and `Frame` functions. The step's arithmetic is clamped
    progress and a floored count, and it stops exactly at the target.
- **Knowledge graph** (`KnowledgeGraph`): the `nodeMap` reduce, the link
  endpoint lookups that draw one line per link, and the node groups.
- **JavaScript built-ins** (`JsBuiltins`): `trim`, `toLowerCase`,
  `replace(/c/g, '')`, integer `toString` and radix-less `parseInt`, as far as
  the code above uses them. Their facts are proved here, including
  `parseInt(n.toString()) == n` for every integer that `toString` writes in
  plain decimal, that is, below 10^21 in magnitude.

The model makes the following choices about the browser and the event loop:

- **Timers and animation frames:** the chat's `setTimeout` and the counter's
  `requestAnimationFrame` become explicit steps. Their timestamps are
  parameters.
- **Order of reply timers:** all chat replies use the same delay, so they fire
  in the order they were scheduled. They are kept in a first-in, first-out
  queue.
- **Page events:** the submit button's `disabled` rule and the display
  condition of the quick suggestions are preconditions of the handlers they
  guard (`ChatbotPage.Submit`, `ChatbotPage.ClickSuggestion`).
  `handleSendMessage` itself (`ChatbotPage.HandleSendMessage`) checks neither.

## Model

| member | source | states |
|---|---|---|
| `JsBuiltins.TrimStart` | frontend/src/mainpage/chatbot.jsx:64 | the result is a suffix of the input; what was cut is all white space; the result does not start with white space |
| `JsBuiltins.TrimEnd` | frontend/src/mainpage/chatbot.jsx:64 | the result is a prefix of the input; what was cut is all white space; the result does not end with white space |
| `JsBuiltins.TrimIsInnerSlice` | frontend/src/mainpage/chatbot.jsx:64 | `trim` returns the contiguous slice of the input between a blank prefix and a blank suffix |
| `JsBuiltins.TrimEnds` | frontend/src/mainpage/chatbot.jsx:64-65 | the trimmed text neither starts nor ends with white space, and it is empty exactly when the input is blank (the `!content` test) |
| `JsBuiltins.TrimIdempotent` | frontend/src/mainpage/chatbot.jsx:64 | trimming already-trimmed text changes nothing |
| `JsBuiltins.TrimStartEmptyIffBlank` | frontend/src/mainpage/chatbot.jsx:64 | stripping leading white space leaves nothing exactly when the text is blank |
| `JsBuiltins.TrimEndEmptyIffBlank` | frontend/src/mainpage/chatbot.jsx:64 | stripping trailing white space leaves nothing exactly when the text is blank |
| `JsBuiltins.RemoveAll` | src/components/portal.jsx:151 | `replace(/c/g, '')` leaves no `c` and never lengthens the text |
| `JsBuiltins.RemoveAllKeepsOthers` | src/components/portal.jsx:151 | every other character is kept as many times as it occurs |
| `JsBuiltins.RemoveAllAppend` | src/components/portal.jsx:206 | removal distributes over concatenation, so kept characters stay in order |
| `JsBuiltins.RemoveAllAbsent` | src/components/portal.jsx:151 | a text without `c` is returned unchanged |
| `JsBuiltins.RemoveAllIdempotent` | src/components/portal.jsx:206 | removing twice removes nothing more |
| `JsBuiltins.DigitChar` | src/components/portal.jsx:151 | a decimal digit value maps to a digit character |
| `JsBuiltins.NatToString` | src/components/portal.jsx:151 | the decimal text of a natural number is a non-empty digit string with no leading zero unless the number is 0 |
| `JsBuiltins.DigitPrefix` | src/components/portal.jsx:151 | `parseInt` reads the longest run of leading decimal digits |
| `JsBuiltins.DigitsValueOfNatToString` | src/components/portal.jsx:151 | reading the decimal text of `n` back gives `n` |
| `JsBuiltins.DigitPrefixOfDigits` | src/components/portal.jsx:151 | an all-digit text is read entirely |
| `JsBuiltins.TrimStartOfIntToString` | src/components/portal.jsx:151 | an integer's text has no leading white space for `parseInt` to skip |
| `JsBuiltins.ParseIntOfDigits` | src/components/portal.jsx:151 | an unsigned run of digits is read as its value |
| `JsBuiltins.ParseIntOfNegatedDigits` | src/components/portal.jsx:151 | a minus sign followed by digits is read as the negated value |
| `JsBuiltins.ParseIntToString` | src/components/portal.jsx:151 | `parseInt` of the plain decimal text of `n` is `n`, for every integer `n`; that text is what `n.toString()` gives when `n` is below 10^21 in magnitude |
| `JsBuiltins.StripCommasOfIntToString` | src/components/portal.jsx:151 | an integer's text holds no comma, so the comma removal leaves it unchanged |
| `LineChart.XScaleEndpoints` | frontend/src/mainpage/datavisualization.jsx:32 | index 0 maps to `padding` and index `n-1` to `width - padding` |
| `LineChart.XScaleEvenSpacing` | frontend/src/mainpage/datavisualization.jsx:32 | consecutive indices are `(width - 2 padding)/(n - 1)` apart |
| `LineChart.XScaleIncreasing` | frontend/src/mainpage/datavisualization.jsx:32 | with a plot area, `xScale` is strictly increasing |
| `LineChart.YScaleInvertedAffine` | frontend/src/mainpage/datavisualization.jsx:33 | 0 maps to `height - padding`, 1000 to `padding`, and equal value steps give equal upward steps |
| `LineChart.YScaleOrder` | frontend/src/mainpage/datavisualization.jsx:33 | a larger value is drawn higher; values in [0, 1000] stay between the margins; larger values are not clamped |
| `LineChart.LinePathCommands` | frontend/src/mainpage/datavisualization.jsx:35 | one command per point in index order, `M` first and `L` after, each at `(xScale(i), yScale(users_i))`; the last ends at the right margin |
| `LineChart.LinePathInsidePlot` | frontend/src/mainpage/datavisualization.jsx:32-35 | the path runs strictly left to right and stays in the plot area when the values are in [0, 1000] |
| `LineChart.GridLinesLayout` | frontend/src/mainpage/datavisualization.jsx:43-48 | every grid line is horizontal at `yScale(label)` across the plot, its label 10 left and 5 below; a larger tick is higher |
| `LineChart.XAxisLabelsUnderVertices` | frontend/src/mainpage/datavisualization.jsx:51-53 | one month label per point, in data order, under its path vertex |
| `LineChart.MonthlyUsersPath` | frontend/src/mainpage/datavisualization.jsx:23-37 | the chart as drawn: vertices (40,172), (144,194), (248,128), (352,79.6), (456,150), (560,106); grid lines for 0 and 800 at y = 260 and y = 84 |
| `PieChart.DrawPie` | frontend/src/mainpage/datavisualization.jsx:94-116 | the render loop with the mutable `cumulative` computes exactly the specified wedges |
| `PieChart.DegreesAdd` | frontend/src/mainpage/datavisualization.jsx:98-99 | weight-to-angle conversion is additive |
| `PieChart.DegreesEnds` | frontend/src/mainpage/datavisualization.jsx:98-99 | weight 0 is 0° and the total weight is 360° |
| `PieChart.DegreesOrder` | frontend/src/mainpage/datavisualization.jsx:98-99 | for a positive total, a larger weight is a larger angle |
| `PieChart.WedgesTileCircle` | frontend/src/mainpage/datavisualization.jsx:94-116 | the first wedge starts at 0°, the last ends at 360°, and each wedge starts where the previous one ends |
| `PieChart.WedgeAngles` | frontend/src/mainpage/datavisualization.jsx:97-99 | wedge `i` spans `360·prefix(i)/total` to `360·prefix(i+1)/total`, a span of `360·value_i/total` |
| `PieChart.SweepOfPrefix` | frontend/src/mainpage/datavisualization.jsx:113-116 | the spans of the first `k` wedges add up to the angle of the first `k` weights |
| `PieChart.SweepIsFullTurn` | frontend/src/mainpage/datavisualization.jsx:94-116 | the spans of all wedges add up to 360° |
| `PieChart.PrefixTotalMonotone` | frontend/src/mainpage/datavisualization.jsx:94-95 | with non-negative weights the running total never decreases |
| `PieChart.PrefixTotalIncreasing` | frontend/src/mainpage/datavisualization.jsx:94-95 | with positive weights the running total strictly increases |
| `PieChart.WedgesDisjoint` | frontend/src/mainpage/datavisualization.jsx:97-116 | with positive weights every wedge has a positive span within [0°, 360°], and distinct wedges do not overlap |
| `PieChart.TwoSlicesWithinTotal` | frontend/src/mainpage/datavisualization.jsx:94 | two non-negative slices together weigh at most the total |
| `PieChart.LargeArcAtMostOnce` | frontend/src/mainpage/datavisualization.jsx:105 | the large-arc flag is set exactly when `value/total > 0.5`, and with non-negative weights on at most one wedge |
| `PieChart.HoverOnlyChangesRadius` | frontend/src/mainpage/datavisualization.jsx:100-114 | hovering changes no angle and no flag, only the radius, which is 55 for the hovered slice and 50 otherwise |
| `PieChart.ProductTypesAngles` | frontend/src/mainpage/datavisualization.jsx:88-105 | the chart as drawn: total 100 and wedges [0,108], [108,252], [252,324], [324,360], none with the large-arc flag |
| `Chatbot.ReplyTextQuotes` | frontend/src/mainpage/chatbot.jsx:81 | the reply holds the user's text verbatim between the quotes, so different texts get different replies |
| `Chatbot.InitialConsistent` | frontend/src/mainpage/chatbot.jsx:44-52 | the first render satisfies the page invariant |
| `Chatbot.InitialState` | frontend/src/mainpage/chatbot.jsx:44-52 | the first render holds one bot greeting with id 1, no pending reply and an empty input; suggestions are shown and the button is disabled |
| `Chatbot.SendBlankIsNoOp` | frontend/src/mainpage/chatbot.jsx:64-65 | sending blank text leaves log, flag, input and timers unchanged |
| `Chatbot.SendAppendsUserMessage` | frontend/src/mainpage/chatbot.jsx:64-77 | a real send appends exactly one user message with the trimmed text and id `old length + 1`, keeps earlier messages, clears the input, sets `isTyping` and schedules one reply remembering the old length and the text |
| `Chatbot.ReplyAppendsBotMessage` | frontend/src/mainpage/chatbot.jsx:77-85 | the reply appends exactly one bot message with id `length at send + 2` and the template text, clears `isTyping` and leaves the input |
| `Chatbot.ReplyAnswersLastMessage` | frontend/src/mainpage/chatbot.jsx:68-79 | in a reachable state the reply's id is the user message's id + 1 and ids stay positions |
| `Chatbot.SuggestionsOnlyWhenIdle` | frontend/src/mainpage/chatbot.jsx:155-160 | while suggestions are offered no reply is pending, so a suggestion click passes the same gate as the button |
| `Chatbot.SuggestionsGoneAfterSend` | frontend/src/mainpage/chatbot.jsx:155 | after the first real send, suggestions are not offered again, whatever follows |
| `Chatbot.StepExtendsLog` | frontend/src/mainpage/chatbot.jsx:72-83 | every event keeps the old log as a prefix of the new one |
| `Chatbot.RunExtendsLog` | frontend/src/mainpage/chatbot.jsx:72-83 | any sequence of events keeps the log append-only |
| `Chatbot.SendEnabledRule` | frontend/src/mainpage/chatbot.jsx:180 | the button is enabled exactly when the input is not blank and no reply is pending |
| `Chatbot.GatedSendKeepsConsistent` | frontend/src/mainpage/chatbot.jsx:63-86 | a send while no reply is pending keeps the state invariant (greeting first, ids are positions, at most one pending reply, which belongs to the last message) |
| `Chatbot.StepKeepsConsistent` | frontend/src/mainpage/chatbot.jsx:155-180 | every event the page lets through keeps the state invariant |
| `Chatbot.RunKeepsConsistent` | frontend/src/mainpage/chatbot.jsx:155-180 | any sequence of such events keeps the state invariant |
| `Chatbot.IdsUniqueAndIncreasing` | frontend/src/mainpage/chatbot.jsx:68-79 | in every reachable state, each message id is its 1-based position, so ids are unique and strictly increasing |
| `Chatbot.SendWhileTypingRepeatsId` | frontend/src/mainpage/chatbot.jsx:68-79 | calling `handleSendMessage` again while a reply is pending leaves two replies queued, breaks the invariant and gives the first reply the id of the second user message |
| `Chatbot.ChatbotPage.constructor` | frontend/src/mainpage/chatbot.jsx:44-52 | the page starts in the initial state, which is consistent |
| `Chatbot.ChatbotPage.OnInputChange` | frontend/src/mainpage/chatbot.jsx:173 | only the input changes |
| `Chatbot.ChatbotPage.HandleSendMessage` | frontend/src/mainpage/chatbot.jsx:63-86 | the new state is `Send(old state, text)`: the log, the input, the typing flag and the pending replies all change as the handler does (the invariant is carried by `GatedSendKeepsConsistent`) |
| `Chatbot.ChatbotPage.Submit` | frontend/src/mainpage/chatbot.jsx:169-180 | callable only while the button is enabled; sends the input and keeps the invariant |
| `Chatbot.ChatbotPage.ClickSuggestion` | frontend/src/mainpage/chatbot.jsx:155-160 | callable only while suggestions are offered; sends the suggestion and keeps the invariant |
| `Chatbot.ChatbotPage.ReplyReady` | frontend/src/mainpage/chatbot.jsx:77-85 | the new state is `Reply(old state)`; it keeps the invariant |
| `Portal.RenderPageDispatch` | src/components/portal.jsx:907-925 | each of the seven keys selects its own page and only that key does; every other key renders home |
| `Portal.NextThemeSwaps` | src/components/portal.jsx:903-905 | light becomes dark, anything else light; two toggles from light or dark restore it |
| `Portal.NavKeyNormalised` | src/components/portal.jsx:206 | a navigation key has no space and no upper-case letter, so deriving a key again gives it back |
| `Portal.ToLowerCaseOfLower` | src/components/portal.jsx:206 | lower-casing text with no upper-case letter changes nothing |
| `Portal.ToLowerCaseAppend` | src/components/portal.jsx:206 | lower-casing works character by character over a concatenation |
| `Portal.LowerCaseKeepsSpaces` | src/components/portal.jsx:206 | lower-casing neither adds nor removes spaces |
| `Portal.RemoveAllOfJoin` | src/components/portal.jsx:206 | removing the separator from two separated words joins them |
| `Portal.NavKeyOfTwoWords` | src/components/portal.jsx:206 | a two-word label leads to its two words in lower case, joined |
| `Portal.LowerCaseWord` | src/components/portal.jsx:206 | lower-casing checked character by character |
| `Portal.NavKeyOfAiAssistant` | src/components/portal.jsx:182-206 | "AI Assistant" leads to `aiassistant` |
| `Portal.NavKeyOfKnowledgeGraph` | src/components/portal.jsx:182-206 | "Knowledge Graph" leads to `knowledgegraph` |
| `Portal.NavKeyOfDataVisualization` | src/components/portal.jsx:182-206 | "Data Visualization" leads to `datavisualization` |
| `Portal.NavKeyOfProductCatalog` | src/components/portal.jsx:182-206 | "Product Catalog" leads to `productcatalog` |
| `Portal.NavLabelsRecognised` | src/components/portal.jsx:182-206 | every header button's key is recognised and leads to its own page, never to the home fallback |
| `Portal.CapabilityPagesRecognised` | src/components/portal.jsx:686-693 | every capability card's page name is recognised, and the six cards reach the six pages other than home |
| `Portal.App.constructor` | src/components/portal.jsx:891-893 | the app starts on `home` with the `light` theme |
| `Portal.App.ToggleTheme` | src/components/portal.jsx:903-905 | the theme becomes `NextTheme` of the old theme; the page stays |
| `Portal.App.SetPage` | src/components/portal.jsx:206 | the page key becomes the given key, the theme stays, and an unknown key renders home |
| `Portal.TargetIsEnd` | src/components/portal.jsx:151 | the counter target parsed from an integer value written in plain decimal, with commas removed, is that value |
| `Portal.StatCountersStart` | src/components/portal.jsx:599-601 | each of the three statistics counters, with the default 2000 ms duration, is a non-zero value in the plain-decimal range and starts animating towards itself when first seen |
| `Portal.ProgressBounds` | src/components/portal.jsx:157 | progress lies in [0, 1] once time has started, never decreases, and is 1 exactly when the duration has elapsed |
| `Portal.CountBounds` | src/components/portal.jsx:158 | for a non-negative target the count is within [0, target], grows with progress, and equals a positive target exactly at progress 1 |
| `Portal.IntersectStarts` | src/components/portal.jsx:148-164 | a zero target changes nothing; any other target is the value itself, schedules the first frame and disconnects the observer |
| `Portal.FrameCount` | src/components/portal.jsx:155-161 | a frame shows a count within [0, target], and for a positive target stops rescheduling exactly when the count has reached the target |
| `Portal.FramesNeverCountDown` | src/components/portal.jsx:155-161 | frames in time order never lower the count, and the first frame's start time is kept |
| `Portal.AnimatedCounter.constructor` | src/components/portal.jsx:142-144 | the hook starts with count 0, nothing scheduled and the observer connected |
| `Portal.AnimatedCounter.OnIntersect` | src/components/portal.jsx:148-164 | the new state is `Intersect(old state)` |
| `Portal.AnimatedCounter.Step` | src/components/portal.jsx:155-161 | the new state is `Frame(old state, timestamp)` |
| `KnowledgeGraph.NodeMapKeys` | src/components/knowledgegraph.jsx:55 | the keys of `nodeMap` are exactly the node ids |
| `KnowledgeGraph.NodeMapLastWins` | src/components/knowledgegraph.jsx:55 | a node whose id no later node repeats is what `nodeMap` holds for that id |
| `KnowledgeGraph.NodeMapFindsEveryNode` | src/components/knowledgegraph.jsx:55 | with distinct ids every node is found under its own id |
| `KnowledgeGraph.LinkLinesJoinNodes` | src/components/knowledgegraph.jsx:106-116 | lines are drawn exactly when every link's ends are node ids; then there is one line per link, in order, and with distinct ids each runs between the centres of the named nodes |
| `KnowledgeGraph.NodeGroupsPlaceNodes` | src/components/knowledgegraph.jsx:119-124 | one group per node, in order, translated to the node's centre with its colour and id; keys are distinct exactly when ids are |
| `KnowledgeGraph.GraphIdsDistinct` | src/components/knowledgegraph.jsx:37-44 | the six entities on the page have distinct ids |
| `KnowledgeGraph.GraphLines` | src/components/knowledgegraph.jsx:45-116 | on the page every link resolves and the eight lines run between the listed centres |

## Left out

- The wedge end points (`Math.cos`/`Math.sin`) and the text of the SVG `d` attributes are not modelled. Angles are kept as exact reals and paths as command records.
- Numbers are exact reals and unbounded integers, not IEEE doubles. For example, the vertex drawn at y = 79.6 is exactly 79.6 here.
- `LineChart.LinePath` and `LineChart.XAxisLabels` exclude a single data point. There, `xScale` divides 0 by 0 and the page draws `NaN` coordinates.
- `PieChart.DrawPie` requires a non-zero total when there are slices. With slices whose total is zero, the page computes `NaN` angles.
- Tooltips, hover targets, and the markers' radius and colour are presentation and are not modelled. The pie's hovered index is a parameter.
- The chat's 2000 ms delay and `scrollIntoView` are not modelled. The reply is an explicit step, and replies fire in scheduling order.
- `Chatbot.Step` blocks a submit while the button is disabled. This follows the browser's rule that a form whose submit button is disabled cannot be submitted implicitly.
- The typing indicator and the message bubbles are markup only.
- `Portal.TargetOf` takes an integer value, which is what the statistics section passes. A string-valued or non-numeric `end`, for which `parseInt` gives `NaN`, is not modelled.
- `Portal.CountBounds`, `Portal.FrameCount` and `Portal.FramesNeverCountDown` are stated for a non-negative target only. For a negative target the count runs downwards.
- `Portal.Frame` and `Portal.AnimatedCounter.Step` require a positive duration.
- `Portal.FramesNeverCountDown` assumes a positive first frame timestamp. At timestamp 0 the `!startTime` test would restart the clock on the next frame.
- `JsBuiltins.IntToString` writes plain decimal for every integer. JavaScript switches to exponent notation from 10^21 in magnitude (`(1e21).toString()` is `"1e+21"`, which `parseInt` reads as 1), so `JsBuiltins.ParseIntToString`, `JsBuiltins.StripCommasOfIntToString` and `Portal.TargetIsEnd` match the page only for `PlainDecimal` values. The page's own targets are in that range (`Portal.StatCountersStart`).
- `JsBuiltins.ParseInt` reads decimal digits only. The hexadecimal `0x` prefix is not modelled; the texts parsed here are always decimal integers.
- `JsBuiltins.ToLowerCase` folds ASCII letters only. All the labels lowered here are ASCII.
- The `IntersectionObserver` threshold, `requestAnimationFrame` scheduling, `StyleSetup` injection and the `dark` class effect on the document are browser I/O.
- The cleanup that disconnects the observer on unmount is browser I/O as well.
- `toLocaleString` formatting of the counter is not modelled.
- Icons, CSS keyframes, static copy, the product catalog listing, the legend, and the search and filter controls of the knowledge graph have no behaviour and are not modelled.
- src/App.jsx, frontend/src/main.jsx and frontend/tailwind.config.js are composition, bootstrap and build configuration, and are not part of this model.
- `KnowledgeGraph.LinkLines` returns `None` when a link names an id that no node has. For most such ids the page throws reading a coordinate of `undefined`; the model does not say which link throws first. An id that names an inherited `Object.prototype` member (`"constructor"`, `"toString"`, `"hasOwnProperty"`, ...) is found on the plain object `nodeMap`, so the page throws nothing and draws that line without coordinates. The model treats such an id like any other missing one, and `KnowledgeGraph.LinkLinesJoinNodes` does not describe the page for it.
