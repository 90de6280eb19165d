# Support inbox: a Dafny model

This project models the logic of a support-inbox front end. The front end is a React page built on a fixed sample data set. It has three panels:
- a filterable list of customer conversations;
- the selected conversation's message thread, with AI-suggested replies and a reply box;
- the customer's details, with the agent the conversation is assigned to.

On a narrow (mobile) viewport only one panel shows at a time. On a wide one the list always shows. With a conversation selected, the thread and the customer details show beside it. With none selected, a "No conversation selected" placeholder shows instead.

The model has one Dafny module per source file, plus three support modules:

| module | file | models |
|---|---|---|
| `MockData` | `mock_data.dfy` | the entities (customer, message, conversation, agent) and the sample data: three agents, five customers, five conversations and the suggestion table |
| `UseMobile` | `use_mobile.dfy` | the viewport hook: a class whose single cell is set by the resize handler |
| `ConversationList` | `conversation_list.dfy` | the status gate plus case-insensitive search, and the list's own state (a class) |
| `ConversationView` | `conversation_view.dfy` | the thread filter, suggestion labels, and the reply box's draft (a class) |
| `UserDetails` | `user_details.dfy` | the agent lookup, the drop-down default and the drop-down's mounted state, the presence badge, and the optional information rows |
| `IndexPage` | `index_page.dfy` | the page's selection, panel and sidebar state (a class), its normalising effect, and the rendering conditions |
| `FilterScenarios`, `SampleScenarios` | `filter_scenarios.dfy`, `sample_scenarios.dfy` | facts about the sample data: the "open" and "billing" filters, the threads, the suggestion table, agent resolution and timestamp order |
| `Seqs`, `Text`, `Wrappers` | `seqs.dfy`, `text.dfy`, `wrappers.dfy` | support: `Array.prototype.filter`; JavaScript `toLowerCase`, `includes` and `trim`; the dictionary order of strings, used to state that the sample timestamps increase; an optional value |

**The filter follows the code.** The filter callback rejects on a status mismatch before it looks at the query (`ConversationList.tsx:33-35`). So the status gate and the text gate are ANDed.

The query is lower-cased but not trimmed. Only the empty string switches the text gate off.

**How events run on the page.** The page's effect (`Index.tsx:24-28`) runs after the two events that change what it depends on:
- selecting a conversation;
- a change of viewport class.

The viewport class is a parameter of every event. The back, details and close buttons are wired only on mobile (`Index.tsx:77-78, 89`), and the thread and details panels render only with a selection. So those handlers require `isMobile`, and the last two also require a selection.

**Long strings in the sample data** are written as concatenations of 10-character pieces. The value is the same string. Written this way, the sample data stays cheap to reason about.

## Model

All source paths are under `ai-chat-compass-ui-main/src/`.

| member | source | states |
|---|---|---|
| MockData.UserStatusText | ai-chat-compass-ui-main/src/data/mockData.ts:2 | the presence status as the sample writes it: "online", "offline" or "away" (definition) |
| MockData.IsAiSuggestion | ai-chat-compass-ui-main/src/data/mockData.ts:20-26 | a message is a suggestion exactly when its optional `isAiSuggestion` flag is present and true (definition) |
| MockData.Conv1Messages | ai-chat-compass-ui-main/src/data/mockData.ts:166-212 | conv-1's seven messages in the order written: four from the thread, then three AI suggestions (definition) |
| MockData.Conv2Messages | ai-chat-compass-ui-main/src/data/mockData.ts:223-242 | conv-2's three messages in the order written (definition) |
| MockData.Conv3Messages | ai-chat-compass-ui-main/src/data/mockData.ts:253-284 | conv-3's five messages in the order written (definition) |
| MockData.Conv4Messages | ai-chat-compass-ui-main/src/data/mockData.ts:296-315 | conv-4's three messages in the order written (definition) |
| MockData.Conv5Messages | ai-chat-compass-ui-main/src/data/mockData.ts:326-357 | conv-5's five messages in the order written (definition) |
| MockData.ConversationIdsDistinct | ai-chat-compass-ui-main/src/data/mockData.ts:155-359 | no two sample conversations share an id, the key of each list entry |
| MockData.UserAndAdminIdsDistinct | ai-chat-compass-ui-main/src/data/mockData.ts:48-125 | the five customers have five different ids, and so do the three agents, whose ids key and value the drop-down items |
| Text.ToLower | ai-chat-compass-ui-main/src/components/conversation/ConversationList.tsx:38-42 | `toLowerCase` keeps the length and lower-cases each character in place (ASCII capitals only) |
| Text.IncludesIffOccurs | ai-chat-compass-ui-main/src/components/conversation/ConversationList.tsx:40-42 | `includes(q)` holds exactly when `q` occurs at some position; the empty query is included everywhere |
| Text.TooFewExcludes | ai-chat-compass-ui-main/src/components/conversation/ConversationList.tsx:40-42 | a string with fewer copies of some character than the query cannot include the query |
| Text.LowerCount | ai-chat-compass-ui-main/src/components/conversation/ConversationList.tsx:38-42 | after lower-casing, a letter occurs as often as the letter and its capital together did before |
| Text.AbsentLetterExcludes | ai-chat-compass-ui-main/src/components/conversation/ConversationList.tsx:38-42 | a field lacking, in both cases, a letter of the lower-case query does not match it |
| Text.SingleLetterExcludes | ai-chat-compass-ui-main/src/components/conversation/ConversationList.tsx:38-42 | a field with one copy of a letter the query uses twice does not match it |
| Text.LeadingWhitespace | ai-chat-compass-ui-main/src/components/conversation/ConversationView.tsx:37 | counts the whitespace run the string starts with: all of it is whitespace, and the next character is not |
| Text.TrailingWhitespace | ai-chat-compass-ui-main/src/components/conversation/ConversationView.tsx:37 | counts the whitespace run the string ends with: all of it is whitespace, and the character before it is not |
| Text.TrimStart | ai-chat-compass-ui-main/src/components/conversation/ConversationView.tsx:37 | leading whitespace is cut: the result is a suffix, all that was cut is whitespace, and the result does not start with whitespace |
| Text.TrimEnd | ai-chat-compass-ui-main/src/components/conversation/ConversationView.tsx:37 | trailing whitespace is cut: the result is a prefix, all that was cut is whitespace, and the result does not end with whitespace |
| Text.Trim | ai-chat-compass-ui-main/src/components/conversation/ConversationView.tsx:37 | `trim()` gives a contiguous piece of the input: what it cuts before and after is all whitespace, the piece has no whitespace at either end, and it is empty exactly when the input is all whitespace |
| Text.TrimIsSlice | ai-chat-compass-ui-main/src/components/conversation/ConversationView.tsx:37 | `trim()` gives the piece of the input that starts where its leading whitespace ends |
| Text.TrimPieces | ai-chat-compass-ui-main/src/components/conversation/ConversationView.tsx:37 | cutting the leading and then the trailing whitespace leaves a piece surrounded only by whitespace, with no whitespace at either end, empty iff the input is all whitespace |
| Text.StartsWithIsOccursAtZero | ai-chat-compass-ui-main/src/components/conversation/ConversationList.tsx:40-42 | a string starts with `q` iff `q` occurs in it at position 0 |
| Text.LessAtFirstDifference | ai-chat-compass-ui-main/src/data/mockData.ts:166-357 | two strings that agree before a position where the first has the smaller character are in order; used to order the ISO timestamps |
| Text.LessTransitive | ai-chat-compass-ui-main/src/data/mockData.ts:166-357 | string order is transitive |
| Seqs.Keep | ai-chat-compass-ui-main/src/components/conversation/ConversationList.tsx:32 | `filter` returns at most the input's elements; each kept element passes, and every passing element is kept |
| Seqs.KeepIsSubsequence | ai-chat-compass-ui-main/src/components/conversation/ConversationList.tsx:32 | `filter` keeps the input order: its result is a subsequence of the input |
| Seqs.KeepCount | ai-chat-compass-ui-main/src/components/conversation/ConversationList.tsx:32 | `filter` keeps every passing element as often as it occurs in the input, and drops every failing one |
| Seqs.KeepAllPass | ai-chat-compass-ui-main/src/components/conversation/ConversationList.tsx:32 | when every element passes, `filter` returns its input |
| Seqs.KeepIdempotent | ai-chat-compass-ui-main/src/components/conversation/ConversationList.tsx:32 | filtering twice with the same predicate equals filtering once |
| Seqs.KeepAppend | ai-chat-compass-ui-main/src/components/conversation/ConversationView.tsx:88 | filtering a concatenation filters each part |
| Seqs.KeepNonePass | ai-chat-compass-ui-main/src/components/conversation/ConversationView.tsx:88 | when no element passes, `filter` returns the empty list |
| ConversationList.Matches | ai-chat-compass-ui-main/src/components/conversation/ConversationList.tsx:33-46 | a conversation is kept iff it passes the status gate and, for a non-empty query, the text gate |
| ConversationList.FilterConversations | ai-chat-compass-ui-main/src/components/conversation/ConversationList.tsx:32-47 | every listed conversation comes from the input and passes the status gate, and the text gate when there is a query; every input conversation that passes is listed |
| ConversationList.FilterStep | ai-chat-compass-ui-main/src/components/conversation/ConversationList.tsx:32-47 | the list is built front to back: a passing head stays in front of the filtered rest, a failing one is dropped |
| ConversationList.FilterIsOrderedSelection | ai-chat-compass-ui-main/src/components/conversation/ConversationList.tsx:32-47 | the list is an ordered subsequence of the input; a passing conversation appears as often as in the input, a failing one never |
| ConversationList.FilterIdempotent | ai-chat-compass-ui-main/src/components/conversation/ConversationList.tsx:32-47 | filtering the shown list again with the same settings changes nothing |
| ConversationList.FilterAllWithoutQuery | ai-chat-compass-ui-main/src/components/conversation/ConversationList.tsx:33-46 | with "all" and an empty query the list is the input |
| ConversationList.IncludedFirstCharOccurs | ai-chat-compass-ui-main/src/components/conversation/ConversationList.tsx:40-42 | a non-empty query included in a field starts with a character of that field |
| ConversationList.LowerHasNoWhitespace | ai-chat-compass-ui-main/src/components/conversation/ConversationList.tsx:38-42 | lower-casing creates no whitespace |
| ConversationList.WhitespaceQueryStillFilters | ai-chat-compass-ui-main/src/components/conversation/ConversationList.tsx:37-43 | the query is not trimmed: a whitespace-only query drops every conversation whose name, subject and preview hold no whitespace |
| ConversationList.ListControls.constructor | ai-chat-compass-ui-main/src/components/conversation/ConversationList.tsx:29-30 | the drop-down starts on "all" and the search box empty |
| ConversationList.ListControls.SetFilterStatus | ai-chat-compass-ui-main/src/components/conversation/ConversationList.tsx:55 | choosing a status replaces the filter and keeps the query |
| ConversationList.ListControls.SetSearchQuery | ai-chat-compass-ui-main/src/components/conversation/ConversationList.tsx:78-79 | typing stores the text as typed and keeps the filter |
| ConversationList.ListControls.Shown | ai-chat-compass-ui-main/src/components/conversation/ConversationList.tsx:32-47 | the listed conversations are exactly the input's conversations that pass both gates for the current filter and query, and there are no more of them than in the input |
| ConversationList.ListControls.ShowsNoMatchMessage | ai-chat-compass-ui-main/src/components/conversation/ConversationList.tsx:85-87 | the "No conversations match" message shows iff no conversation passes both gates |
| ConversationView.Thread | ai-chat-compass-ui-main/src/components/conversation/ConversationView.tsx:88 | the thread shows only messages that are not AI suggestions, and every such message |
| ConversationView.ThreadIsOrderedSelection | ai-chat-compass-ui-main/src/components/conversation/ConversationView.tsx:88 | the thread keeps message order, and each ordinary message as often as it occurs |
| ConversationView.ThreadWithoutSuggestions | ai-chat-compass-ui-main/src/components/conversation/ConversationView.tsx:88 | a thread with no suggestion is shown whole |
| ConversationView.ThreadOfOpeningThenSuggestions | ai-chat-compass-ui-main/src/components/conversation/ConversationView.tsx:88 | ordinary messages followed by suggestions show as exactly the ordinary messages |
| ConversationView.SuggestionLabel | ai-chat-compass-ui-main/src/components/conversation/ConversationView.tsx:150 | a label is at most 70 characters; a suggestion of up to 70 is shown as is; a longer one becomes its first 67 characters and "..." (exactly 70) |
| ConversationView.SuggestionsFor | ai-chat-compass-ui-main/src/components/conversation/ConversationView.tsx:135-142 | a conversation with a table entry is offered exactly that entry's suggestions; one without an entry is offered none |
| ConversationView.ShowsSuggestions | ai-chat-compass-ui-main/src/components/conversation/ConversationView.tsx:135 | the suggestion block renders exactly for conv-1 to conv-5, the ids with an entry in the table |
| ConversationView.ReplyBox.constructor | ai-chat-compass-ui-main/src/components/conversation/ConversationView.tsx:24 | the draft starts empty |
| ConversationView.ReplyBox.SendDisabled | ai-chat-compass-ui-main/src/components/conversation/ConversationView.tsx:177 | Send is disabled iff the draft is all whitespace |
| ConversationView.ReplyBox.Edit | ai-chat-compass-ui-main/src/components/conversation/ConversationView.tsx:163 | typing replaces the draft |
| ConversationView.ReplyBox.ClickSuggestion | ai-chat-compass-ui-main/src/components/conversation/ConversationView.tsx:142-148 | clicking a suggestion puts the whole suggestion, not its label, in the draft; only conversations with a table entry have buttons |
| ConversationView.ReplyBox.SendMessage | ai-chat-compass-ui-main/src/components/conversation/ConversationView.tsx:36-43 | a draft with a non-whitespace character is sent and cleared; a blank draft is kept and nothing is sent, so sending acts iff Send is enabled |
| ConversationView.ReplyBox.KeyDown | ai-chat-compass-ui-main/src/components/conversation/ConversationView.tsx:45-50 | Enter without Shift prevents the newline and sends; any other key, Shift+Enter included, changes nothing and sends nothing |
| UserDetails.FindAdmin | ai-chat-compass-ui-main/src/components/conversation/UserDetails.tsx:27 | `find` returns none iff no agent has the id, and otherwise an agent from the list with that id |
| UserDetails.FindAdminIsFirst | ai-chat-compass-ui-main/src/components/conversation/UserDetails.tsx:27 | what `find` returns is the first agent in list order with the id |
| UserDetails.AssignedAdmin | ai-chat-compass-ui-main/src/components/conversation/UserDetails.tsx:25-28 | no agent for a missing or empty id; otherwise an agent with that id, and none iff no agent has it |
| UserDetails.AssignSelectDefault | ai-chat-compass-ui-main/src/components/conversation/UserDetails.tsx:89 | the drop-down defaults to the assigned id when it is non-empty, else to "unassigned" |
| UserDetails.AssignSelect.constructor | ai-chat-compass-ui-main/src/components/conversation/UserDetails.tsx:89 | a freshly mounted drop-down shows the assigned id when non-empty, else "unassigned" |
| UserDetails.AssignSelect.Pick | ai-chat-compass-ui-main/src/components/conversation/UserDetails.tsx:89-101 | picking "unassigned" or an agent of the table shows that choice |
| UserDetails.AssignSelect.Rerender | ai-chat-compass-ui-main/src/components/conversation/UserDetails.tsx:89 | a re-render with a new assignment keeps the shown value, since `defaultValue` is read only at mount |
| UserDetails.SwitchSelectionAsWritten | ai-chat-compass-ui-main/src/pages/Index.tsx:84-90 | as written, switching the selection on a wide viewport re-renders the same drop-down, which keeps its value |
| UserDetails.SwitchSelectionKeyed | ai-chat-compass-ui-main/src/pages/Index.tsx:84-90 | corrected, with the details panel keyed by conversation: a different conversation shows its own default, the same one keeps the shown value |
| UserDetails.StaleAssigneeScenario | ai-chat-compass-ui-main/src/components/conversation/UserDetails.tsx:89 | from a conversation assigned to admin-1 to an unassigned one: as written the drop-down still shows admin-1 while no agent card shows; keyed it shows "unassigned" |
| UserDetails.Capitalise | ai-chat-compass-ui-main/src/components/conversation/UserDetails.tsx:68 | same length; first character upper-cased; the rest unchanged |
| UserDetails.StatusLabel | ai-chat-compass-ui-main/src/components/conversation/UserDetails.tsx:68 | the badge reads "Online", "Offline" or "Away" |
| UserDetails.StatusColour | ai-chat-compass-ui-main/src/components/conversation/UserDetails.tsx:57-66 | green iff online, yellow iff away, gray for every other status |
| UserDetails.OptionalRow | ai-chat-compass-ui-main/src/components/conversation/UserDetails.tsx:140-148 | an optional row appears iff its field is present and non-empty, and it shows that field |
| UserDetails.CustomerInfoRows | ai-chat-compass-ui-main/src/components/conversation/UserDetails.tsx:140-184 | exactly one row per present, non-empty optional field plus the two fixed rows; every company, plan or location row shows its own field; the sign-up and last-active rows close the block |
| UserDetails.InfoBlockShape | ai-chat-compass-ui-main/src/components/conversation/UserDetails.tsx:140-184 | the block's length is two plus one per present optional field, and it ends with the sign-up and last-active rows |
| UserDetails.InfoBlockSound | ai-chat-compass-ui-main/src/components/conversation/UserDetails.tsx:140-170 | a company, plan or location row appears only when that field is present, and shows its value |
| UserDetails.InfoBlockComplete | ai-chat-compass-ui-main/src/components/conversation/UserDetails.tsx:140-170 | every present optional field has its row in the block |
| UserDetails.CustomerInfoRowsInOrder | ai-chat-compass-ui-main/src/components/conversation/UserDetails.tsx:140-184 | the block lists company, plan, location, sign-up date and last activity in that order, each at most once |
| UseMobile.MobileHook.constructor | ai-chat-compass-ui-main/src/hooks/use-mobile.tsx:7 | before the first check the cell is unset and the hook reports "not mobile" |
| UseMobile.MobileHook.Value | ai-chat-compass-ui-main/src/hooks/use-mobile.tsx:25 | `!!isMobile`: true only when the cell holds true, and equal to the cell once it is set |
| UseMobile.MobileHook.HandleResize | ai-chat-compass-ui-main/src/hooks/use-mobile.tsx:11-13 | after a resize the hook reports exactly `width < 768`, from that width alone |
| UseMobile.MobileHook.Mount | ai-chat-compass-ui-main/src/hooks/use-mobile.tsx:16-19 | mounting classifies the current width at once, before any resize event |
| UseMobile.IsMobileWidth | ai-chat-compass-ui-main/src/hooks/use-mobile.tsx:12 | a width is mobile exactly when it is below the 768-pixel breakpoint (definition) |
| UseMobile.ClassificationScenario | ai-chat-compass-ui-main/src/hooks/use-mobile.tsx:7-25 | its assertions: a fresh hook reports not mobile; mounting at 767 reports mobile; a resize to 768 reports not mobile; repeating that resize leaves the cell as it was |
| IndexPage.LayoutOf | ai-chat-compass-ui-main/src/pages/Index.tsx:62-95 | wide: list always, thread and details iff a selection, empty state iff none and never with the thread; mobile: no empty state and, under the invariant, exactly the active panel; back/details/close buttons only on mobile |
| IndexPage.Index.constructor | ai-chat-compass-ui-main/src/pages/Index.tsx:18-21 | no selection, the list panel, the sidebar expanded; the invariant and the effect's condition hold |
| IndexPage.Index.ScreenSizeEffect | ai-chat-compass-ui-main/src/pages/Index.tsx:24-28 | wide with a selection switches to the thread panel, otherwise nothing changes; the invariant is kept |
| IndexPage.Index.SelectConversation | ai-chat-compass-ui-main/src/pages/Index.tsx:30-35 | selecting records the conversation, shows the thread panel on either viewport, and keeps the sidebar flag |
| IndexPage.Index.ViewportChanged | ai-chat-compass-ui-main/src/pages/Index.tsx:24-28 | a viewport change only runs the effect: selection and sidebar kept |
| IndexPage.Index.BackToList | ai-chat-compass-ui-main/src/pages/Index.tsx:37-39 | back shows the list and keeps the selection and the sidebar flag |
| IndexPage.Index.ToggleUserDetails | ai-chat-compass-ui-main/src/pages/Index.tsx:41-43 | shows the details panel; selection and sidebar flag kept |
| IndexPage.Index.CloseUserDetails | ai-chat-compass-ui-main/src/pages/Index.tsx:45-47 | shows the thread panel; selection and sidebar flag kept |
| IndexPage.Index.ToggleSidebar | ai-chat-compass-ui-main/src/pages/Index.tsx:49-51 | flips only the sidebar flag, so two toggles restore the state |
| IndexPage.PanelNavigationScenario | ai-chat-compass-ui-main/src/pages/Index.tsx:18-95 | its assertions: no selection shows the placeholder; select, details, close and back move between the mobile panels keeping the selection; two sidebar toggles change nothing; widening with details open shows list, thread and details; narrowing again shows the thread |
| FilterScenarios.KeepHead | ai-chat-compass-ui-main/src/components/conversation/ConversationList.tsx:32-47 | a passing conversation in front of a filtered rest stays in front |
| FilterScenarios.DropHead | ai-chat-compass-ui-main/src/components/conversation/ConversationList.tsx:32-47 | a failing conversation in front of a filtered rest is dropped |
| FilterScenarios.FilterFirstSecondFifth | ai-chat-compass-ui-main/src/components/conversation/ConversationList.tsx:32-47 | when only the first, second and fifth of five pass, exactly those are listed, in order |
| FilterScenarios.FilterOnlyLast | ai-chat-compass-ui-main/src/components/conversation/ConversationList.tsx:32-47 | when only the last of three passes, only it is listed |
| FilterScenarios.FilterFirstOnly | ai-chat-compass-ui-main/src/components/conversation/ConversationList.tsx:32-47 | when only the first of five passes, only it is listed |
| FilterScenarios.MissesQuery | ai-chat-compass-ui-main/src/components/conversation/ConversationList.tsx:37-43 | a conversation whose three lower-cased fields all lack the query is not listed |
| FilterScenarios.OpenFilter | ai-chat-compass-ui-main/src/data/mockData.ts:155-359 | filtering the sample with "open" and no query lists conv-1, conv-2 and conv-5, in that order |
| FilterScenarios.BillingSearch | ai-chat-compass-ui-main/src/data/mockData.ts:155-359 | searching the sample for "billing" under "all" lists conv-1 alone |
| SampleScenarios.Conv1ThreadHidesSuggestions | ai-chat-compass-ui-main/src/data/mockData.ts:166-212 | conv-1 has seven messages, and its thread shows the first four |
| SampleScenarios.Conv1SuggestionsMatchTable | ai-chat-compass-ui-main/src/data/mockData.ts:128-212 | conv-1's last three messages are AI suggestions sent by the assistant, with the texts of its table entry in table order |
| SampleScenarios.OnlyFirstHasSuggestions | ai-chat-compass-ui-main/src/components/conversation/ConversationView.tsx:88 | in five conversations where only the first may hold suggestions, all from the assistant, the other four threads are shown whole |
| SampleScenarios.SuggestionsOnlyInConv1 | ai-chat-compass-ui-main/src/data/mockData.ts:155-359 | every AI suggestion in the sample is sent by the assistant, and every conversation but conv-1 shows its whole thread |
| SampleScenarios.SuggestionTableShape | ai-chat-compass-ui-main/src/data/mockData.ts:127-153 | the suggestion table has entries for exactly conv-1 to conv-5, with three replies each |
| SampleScenarios.AgentIdsResolve | ai-chat-compass-ui-main/src/data/mockData.ts:48-67 | "admin-1" and "admin-2" resolve to the first and second agent of the table |
| SampleScenarios.AssignedAdminsResolve | ai-chat-compass-ui-main/src/data/mockData.ts:155-292 | conv-1's agent is the first of the table and conv-4's the second |
| SampleScenarios.AssignmentsResolve | ai-chat-compass-ui-main/src/components/conversation/UserDetails.tsx:25-28 | conversations assigned only to "admin-1" or "admin-2" all resolve to an agent of the sample agent table |
| SampleScenarios.EveryAssignmentResolves | ai-chat-compass-ui-main/src/data/mockData.ts:155-359 | every assigned sample conversation resolves to an agent of the table |
| SampleScenarios.IncreasingFromNeighbours | ai-chat-compass-ui-main/src/data/mockData.ts:166-357 | timestamps that increase from each message to the next increase throughout |
| SampleScenarios.Conv1TimestampsIncrease | ai-chat-compass-ui-main/src/data/mockData.ts:166-212 | conv-1's timestamps strictly increase in message order |
| SampleScenarios.Conv2TimestampsIncrease | ai-chat-compass-ui-main/src/data/mockData.ts:223-242 | conv-2's timestamps strictly increase in message order |
| SampleScenarios.Conv3TimestampsIncrease | ai-chat-compass-ui-main/src/data/mockData.ts:253-284 | conv-3's timestamps strictly increase in message order |
| SampleScenarios.Conv4TimestampsIncrease | ai-chat-compass-ui-main/src/data/mockData.ts:296-315 | conv-4's timestamps strictly increase in message order |
| SampleScenarios.Conv5TimestampsIncrease | ai-chat-compass-ui-main/src/data/mockData.ts:326-357 | conv-5's timestamps strictly increase in message order |

## Left out

- Markup: JSX, Tailwind classes, icons and panel widths are presentation, with no stated behaviour. The one exception is which regions and navigation buttons render, which `IndexPage.LayoutOf` models.
- The message bubbles' sender-dependent placement and the agent card's contents (`ConversationView.tsx:89-127`, `UserDetails.tsx:103-114`): the card shows exactly when `AssignedAdmin` returns an agent; its fields are display only.
- `Header.tsx` and `Sidebar.tsx`: static menus. Their only logic is the collapse toggle, which `Index.ToggleSidebar` models.
- React machinery: effect scheduling, state batching, `useRef` and `scrollIntoView`, and adding and removing the `resize` listener. The effect is a deterministic step after the events it depends on. The window width is a parameter.
- ConversationList.ListControls, ConversationView.ReplyBox, UserDetails.AssignSelectDefault: each panel's own state is modelled apart from `IndexPage.Index`, so the model does not capture how long that state lives. `Index.tsx:62, 73, 84` render the panels conditionally and without a `key`. On mobile a hidden panel unmounts: after `BackToList` the list mounts again with filter "all" and an empty query (`ConversationList.tsx:29-30`), and `ToggleUserDetails` discards the reply draft (`ConversationView.tsx:24`). On a wide viewport, selecting another conversation keeps the same instances: a draft typed for one conversation stays in the next one's reply box, and the "Assign to" drop-down keeps its value. `UserDetails.AssignSelect` models the drop-down case, recorded under "## Findings".
- `renderTime` (`ConversationView.tsx:52-54`): it calls date-fns `format` on `new Date`, which depends on locale and time zone.
- `console.log` when sending (`ConversationView.tsx:39`): output only. The sent text is returned instead.
- Avatar image URLs: opaque strings with no behaviour.
- Text.ToLower: lower-cases ASCII capitals only. JavaScript's `toLowerCase` also maps non-ASCII capitals. All the sample data is ASCII.
- Text.Trim: uses the ECMAScript whitespace set as listed code points. It does not track the Unicode version's full space-separator category beyond those code points.
- ConversationView.SuggestionLabel: counts characters as code points, where JavaScript counts UTF-16 units. The two differ only for characters outside the Basic Multilingual Plane, and no suggestion has any.
- UserDetails.Capitalise: upper-cases ASCII letters only and keeps the length. JavaScript's `toUpperCase` also maps non-ASCII letters and can lengthen a string (`"ß"` becomes `"SS"`). Only the three ASCII status words `online`, `offline` and `away` reach it (`UserDetails.tsx:68`).
- ConversationView.SuggestionsFor: looks the id up in a map, so an id without an entry gives no suggestions. The source indexes a plain object literal (`ConversationView.tsx:135, 142`). There, an id naming an `Object.prototype` member such as `"constructor"` or `"toString"` finds an inherited value that is truthy but has no `map`, and rendering throws. No sample id is such a name.
- Text.Less: compares character by character on code points. JavaScript compares UTF-16 units. The two agree on the ASCII timestamps it is used for.
- The "Add tag", attachment, Email, Call, Add note, Mute and Block buttons have no handlers, so there is nothing to model.

## Findings

| source | as written | input that shows it | evidently intended | confidence | as-written member | corrected member |
|---|---|---|---|---|---|---|
| ai-chat-compass-ui-main/src/pages/Index.tsx:84-90 | the details panel is rendered without a `key`, and its "Assign to" drop-down is uncontrolled (`defaultValue`, `UserDetails.tsx:89`); on a wide viewport a new selection re-renders the same drop-down, which keeps its value | select conv-1 (assigned to admin-1), then conv-2 (unassigned): the drop-down still shows Sarah Johnson while the agent card is gone | the drop-down shows the newly selected conversation's assignment, here "Unassigned" | medium; not executed | UserDetails.SwitchSelectionAsWritten, UserDetails.StaleAssigneeScenario | UserDetails.SwitchSelectionKeyed |
