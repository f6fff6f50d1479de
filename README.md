# GolClub storefront core in Dafny

GolClub sells football shirts through a chat assistant. This project models
the parts of its Next.js code that decide things, and proves what they do:

- **`POST /api/checkout`** (`checkout.dfy`, `checkout_properties.dfy`): one
  checkout request, step by step.
  - The steps are: authenticate, resolve the product named by the chat,
    insert a `pending` order, insert at most one order item, build the
    Mercado Pago payload for PIX or card, call the gateway, map the raw
    status onto the order, send a best-effort e-mail, answer.
  - `CheckoutService` is a class whose fields are the `orders` and
    `order_items` tables and the log of requests sent to collaborators.
  - Its `Post` method is proved to follow the pure specification `Checkout`.
  - The properties are proved about `Checkout`: step order, no side effects
    without a user, no gateway call without an inserted order, which errors
    are ignored, that the response carries the raw status, and that a retry
    creates a second order.
- **The chat page** (`chat_page.dfy`), covering:
  - the lead-capture heuristics `extractName` and `extractWhatsApp`, with
    both regular expressions written out as matchers;
  - team-keyword detection;
  - the write-once merge of what they find;
  - the streaming update of the assistant's reply.

  The page's state is the class `ChatSession`.
- **`/api/leads`** (`leads.dfy`): `POST`, an update-or-insert keyed by
  `session_id` with a partial merge, and `GET`. The `leads` table is the
  class `LeadTable`.
- **The catalog panel** (`catalog.dfy`): the search and team filter, and the
  de-duplicated team list.
- **The chat context** (`chat_context.dfy`) and the chat text box's send
  guard (`chat_input.dfy`).
- **The two carousels** (`banner_carousel.dfy`, `promo_banner.dfy`, over the
  ring arithmetic in `rotation.dfy`).
- **The admin sidebar's active-link rule** (`admin_sidebar.dfy`).
- **The admin product form** (`product_form.dfy`): the initial values, the
  sizes text (joined with `", "`, parsed by splitting on `,` and trimming),
  and the URL and method it submits to.

`text.dfy` gives the JavaScript string operations the code relies on: `trim`
and `\s`, `toLowerCase` over Latin-1, `includes`, `startsWith`, `split`,
`join`, `replace(/\D/g, '')` and UTF-16 `length`. `seqs.dfy` holds generic
sequence facts, and `wrappers.dfy` holds `Option`, `Result` and JavaScript
truthiness of optional strings.

Where the design documentation and the code disagree, the model follows the
code:

- **Product resolution.** The code takes the FIRST case-insensitive
  substring match (`limit(1)`). It does not return null for an ambiguous
  name. See `AmbiguousNameResolvesToFirst`. The query has no `order`, so
  "first" means first in the database's own row order, which is
  unspecified. The model's catalog sequence stands for that order.
- **Step order.** The product is resolved BEFORE the order is inserted, not
  after it.
- **Status update.** A failed status update is ignored. The response is
  still a success and the order stays `pending`. See `UpdateFailureIgnored`.
- **Response status.** The response carries the gateway's RAW status, not
  the mapped one. See `SuccessCarriesRawStatus`.

## Model

| member | source | states |
|---|---|---|
| `Text.TrimIsInfix` | src/components/chat/ChatInput.tsx:19 | `trim` keeps one infix of the text, drops only white space at either end, and what it keeps neither starts nor ends with white space |
| `Text.TrimIdempotent` | src/components/chat/ChatInput.tsx:19 | trimming twice is trimming once |
| `Text.TrimEmptyIffAllSpace` | src/app/page.tsx:128 | `content.trim()` is empty exactly when the content is white space only |
| `Text.LowerMeaning` | src/app/page.tsx:32 | `toLowerCase` keeps the length and every character that is not a capital, turns each capital into its small letter, leaves no capital, and lower-casing twice is lower-casing once |
| `Text.Utf16Length` | src/app/page.tsx:47-48 | `length` counts UTF-16 units: between one and two per character, one for each character of the Basic Multilingual Plane |
| `Text.ContainsTrans` | src/components/catalog/ProductCatalog.tsx:50-52 | `includes` is transitive |
| `Text.InfixIndex` | src/app/api/checkout/route.ts:54 | a substring match is an actual infix at some position |
| `Text.Split` | src/components/admin/ProductForm.tsx:52 | `split(',')` gives one piece more than there are commas, no piece holds a comma, and the first piece is the text before the first comma |
| `Text.SplitAt` | src/components/admin/ProductForm.tsx:52 | the first separator ends the first piece, and the pieces after it are the pieces of the rest; with `Text.Split` this determines every piece |
| `Text.SplitWs` | src/app/page.tsx:42 | `split(/\s+/)` gives at least one piece, no piece holds white space, and the first piece is the text before the first white space |
| `Text.SplitWsNoSpace` | src/app/page.tsx:42 | a text without white space is one piece, itself |
| `Text.SplitWsAt` | src/app/page.tsx:42-54 | the first maximal run of white space ends the first piece, and the pieces after it are the pieces of the rest; this determines every piece and the count that `words.length` reads |
| `Text.KeepDigits` | src/app/page.tsx:74 | `replace(/\D/g, '')` leaves only digits and returns a text of digits as it is |
| `Text.KeepDigitsAppend` | src/app/page.tsx:74 | removing non-digits distributes over concatenation |
| `Seqs.FirstIndex` | src/app/api/checkout/route.ts:54 | the first element satisfying a test: none before it satisfies it, and it does when one exists |
| `CheckoutRoute.HttpStatus` | src/app/api/checkout/route.ts:26-165 | the answer is 200 exactly for a successful checkout, 401 exactly without a user, and 500 otherwise |
| `CheckoutRoute.ResolveProduct` | src/app/api/checkout/route.ts:52-56 | no product exactly when none matches; otherwise the first match in catalog order, where the catalog sequence stands for the database's unspecified row order |
| `CheckoutRoute.MapStatus` | src/app/api/checkout/route.ts:114-116 | `approved` maps to confirmed and `rejected` to cancelled, each exactly; anything else maps to awaiting payment, and never to pending |
| `CheckoutRoute.GetPaymentClient` | src/app/api/checkout/route.ts:9-15 | fails, with "MP_ACCESS_TOKEN missing", exactly when the token is unset or empty |
| `CheckoutRoute.CaughtMessage` | src/app/api/checkout/route.ts:159-165 | the error's own message, or the fallback when it is empty; never empty |
| `CheckoutRoute.DecimalText` | src/app/api/checkout/route.ts:90 | the text of an order id is a non-empty run of digits |
| `CheckoutRoute.ShortId` | src/app/api/checkout/route.ts:90 | `order.id.slice(0, 8)` is a prefix of the id's text of 1 to 8 characters |
| `CheckoutRoute.Payload` | src/app/api/checkout/route.ts:88-104 | the order id is the external reference; the method is `pix` for PIX and the card brand otherwise; the payer's e-mail falls back to the user's; the card fields are there exactly for `credit_card` |
| `CheckoutRoute.EmailFor` | src/app/api/checkout/route.ts:131-142 | the e-mail goes to the user and announces a confirmed payment exactly for a confirmed order; the PIX reminder appears exactly for a PIX order awaiting payment |
| `CheckoutRoute.CheckoutService.constructor` | src/app/api/checkout/route.ts:58-83 | the tables start empty and valid |
| `CheckoutRoute.CheckoutService.Post` | src/app/api/checkout/route.ts:17-166 | the new tables, the requests sent and the response are those of `Checkout` on the old tables; the table invariant is kept |
| `CheckoutRoute.CheckoutService.PostAuthorized` | src/app/api/checkout/route.ts:35-157 | steps 2 to 8 follow `Authorized` |
| `CheckoutRoute.CheckoutService.LookupStep` | src/app/api/checkout/route.ts:52-56 | the product query is sent only when a name is given; the result is the resolved product, or none when the query fails |
| `CheckoutRoute.CheckoutService.PlaceOrder` | src/app/api/checkout/route.ts:58-83 | inserts the pending order under the next id and at most one item, following `Place` |
| `CheckoutRoute.CheckoutService.ChargeOrder` | src/app/api/checkout/route.ts:86-106 | gets the payment client, builds the payload and calls the gateway, following `Charge` |
| `CheckoutRoute.CheckoutService.BuildPaymentData` | src/app/api/checkout/route.ts:88-104 | the payload, written field by field and completed for cards, is `Payload` |
| `CheckoutRoute.CheckoutService.SettleOrder` | src/app/api/checkout/route.ts:109-157 | maps the status, writes it back, sends the e-mail and answers with the raw status, following `Settle` |
| `CheckoutProperties.UnauthorizedHasNoSideEffects` | src/app/api/checkout/route.ts:22-28 | without a user: 401, no request sent and nothing written |
| `CheckoutProperties.StepsInOrder` | src/app/api/checkout/route.ts:52-144 | every request follows the order lookup, order insert, item insert, gateway call, update, e-mail, each once at most: the product is resolved before the insert and the gateway called after it |
| `CheckoutProperties.GatewayNeedsInsertedOrder` | src/app/api/checkout/route.ts:58-106 | the gateway is called only for an authenticated request whose order insert succeeded |
| `CheckoutProperties.GatewayPaysInsertedOrder` | src/app/api/checkout/route.ts:58-97 | the payment's external reference is the new order, and that order's insert, with the request's user, amount and method, was sent before |
| `CheckoutProperties.PendingOrderPlaced` | src/app/api/checkout/route.ts:58-67 | the order written before the gateway call is `pending` with the user, amount and method, and no payment data |
| `CheckoutProperties.OrderInsertFailureStopsBeforeGateway` | src/app/api/checkout/route.ts:69-72 | a failed insert answers 500 "Failed to create order", writes nothing, and sends neither an item nor a payment |
| `CheckoutProperties.ItemIffProductMatched` | src/app/api/checkout/route.ts:52-83 | an item insert is sent exactly when a product was resolved |
| `CheckoutProperties.ItemFields` | src/app/api/checkout/route.ts:75-83 | the item has quantity 1, the amount as price, size "G" and the first matching product; it is stored unless its insert fails, which is not looked at |
| `CheckoutProperties.StatusWrittenBack` | src/app/api/checkout/route.ts:114-128 | after a successful update the order holds the mapped status, the raw status and the payment id |
| `CheckoutProperties.UpdateFailureIgnored` | src/app/api/checkout/route.ts:118-128 | a failed update leaves the order `pending`, and the answer is still the success |
| `CheckoutProperties.GatewayFailureLeavesOrderPending` | src/app/api/checkout/route.ts:86-165 | a missing token, a missing payer or a throwing gateway answers 500; the order stays `pending`, with no update and no e-mail; a missing token never reaches the gateway |
| `CheckoutProperties.SuccessCarriesRawStatus` | src/app/api/checkout/route.ts:147-157 | a success is 200 with the new order's id, the gateway's id, its raw status and its PIX fields |
| `CheckoutProperties.EmailOutcomeIsSwallowed` | src/app/api/checkout/route.ts:131-144 | the e-mail provider's answer changes neither the response, nor the tables, nor the requests |
| `CheckoutProperties.EmailSentIffUserHasAddress` | src/app/api/checkout/route.ts:131-144 | the last request is the e-mail exactly when the user has an address, and the update otherwise |
| `CheckoutProperties.OneNewOrderPerRequest` | src/app/api/checkout/route.ts:58-72 | exactly one new order, under the next id, for a request that got past the insert, and none otherwise; earlier orders are unchanged |
| `CheckoutProperties.CheckoutKeepsStoreValid` | src/app/api/checkout/route.ts:58-128 | orders stay keyed by their ids, and every item belongs to an order |
| `CheckoutProperties.RetryCreatesSecondOrder` | src/app/api/checkout/route.ts:58-67 | the same request sent twice creates two orders with distinct ids |
| `CheckoutProperties.AmbiguousNameResolvesToFirst` | src/app/api/checkout/route.ts:54 | of several matching products, the first one is used |
| `ChatPage.ExtractName` | src/app/page.tsx:31-60 | a name only after a name cue; it is a prefix of the trimmed message, holds no space, and is empty only for a blank message |
| `ChatPage.NameWordWins` | src/app/page.tsx:42-51 | with a cue, a first word that looks like a name is returned |
| `ChatPage.ShortAnswerIsName` | src/app/page.tsx:53-56 | with a cue and a short answer, a name is returned: failing the name test, the first space-separated token of the trimmed message |
| `ChatPage.LongSentenceNoName` | src/app/page.tsx:46-59 | a message of more than two words, long or holding a space, whose first word is not a name, gives none |
| `ChatPage.MatchAt` | src/app/page.tsx:68-72 | a match of `\d{10,11}` is a run of 10 or 11 digits; a match of the formatted pattern holds 10 or 11 digits |
| `ChatPage.Search` | src/app/page.tsx:68-72 | `match` finds the leftmost position where the pattern matches; none when it matches nowhere |
| `ChatPage.ExtractWhatsApp` | src/app/page.tsx:63-79 | a number only after a phone cue, and then only 10 or 11 digits |
| `ChatPage.PlainMatchIff` | src/app/page.tsx:68 | the plain pattern matches exactly where 10 digits start |
| `ChatPage.PlainRunWins` | src/app/page.tsx:68-69 | the leftmost run of 10 digits is returned as written, with an eleventh when one follows |
| `ChatPage.FormattedNumberFound` | src/app/page.tsx:72-75 | without a plain run, the leftmost formatted number is returned as its digits |
| `ChatPage.FirstMentionedIndex` | src/app/page.tsx:157-160 | the team detected is the first of the list, in list order, that the lower-cased message includes; none when it includes none |
| `ChatPage.LeadSaves` | src/app/page.tsx:145-166 | at most three saves; the name is saved exactly when it is newly captured |
| `ChatPage.WriteOnce` | src/app/page.tsx:145-166 | a captured field is never overwritten; a field not yet captured takes a truthy extraction, and keeps its value when the extraction is falsy; a field only ever changes to a truthy extraction |
| `ChatPage.FirstCaptureWins` | src/app/page.tsx:143-166 | over a conversation each field holds the value it already had, or else the first truthy extraction |
| `ChatPage.CaptureLead` | src/app/page.tsx:143-166 | the three checks, each against the lead as it was before the message, give `MergedLead` and the saves `LeadSaves` |
| `ChatPage.LastAssistantContent` | src/app/page.tsx:137 | when there is an assistant message, the content of the last one, with only user messages after it; "" when there is none |
| `ChatPage.ReplaceContent` | src/app/page.tsx:211-213 | only the message with the id gets the new content; the length and all other messages are unchanged |
| `ChatPage.ReplaceTwice` | src/app/page.tsx:211-213 | a later replacement overrides an earlier one |
| `ChatPage.StreamReply` | src/app/page.tsx:194-215 | the content is all chunks in order, and the message with the assistant id holds it |
| `ChatPage.StreamedReplyAppendsOne` | src/app/page.tsx:197-215 | a completed stream adds one assistant message with all the chunks and leaves the rest as it was |
| `ChatPage.ReplyKeepsHistory` | src/app/page.tsx:197-222 | whatever the endpoint answers, the messages before it stay in place |
| `ChatPage.ChatSession.constructor` | src/app/page.tsx:82-91 | the welcome message, an empty input, not loading, no lead |
| `ChatPage.ChatSession.Submit` | src/app/page.tsx:127-187 | a blank message, or one sent while loading, changes nothing; otherwise the trimmed message is appended, the input cleared, loading set, the lead merged, and the saves and the chat request are those of the lead and the history |
| `ChatPage.ChatSession.Receive` | src/app/page.tsx:189-225 | the messages become those of the reply (placeholder, streamed content, or the error message), and loading ends |
| `LeadsRoute.PostStatus` | src/app/api/leads/route.ts:35-60 | 500 exactly on a failed save |
| `LeadsRoute.GetStatus` | src/app/api/leads/route.ts:69-89 | 200 exactly when the lookup answered, with a lead or null; 400 exactly without a session id; 500 exactly for a failed query |
| `LeadsRoute.WithSession` | src/app/api/leads/route.ts:13-17 | the rows of the session: only such rows, and all of them |
| `LeadsRoute.Single` | src/app/api/leads/route.ts:75-81 | `.single()` gives a row exactly when one row matched |
| `LeadsRoute.LeadTable.constructor` | src/app/api/leads/route.ts:40-50 | the table starts empty and valid |
| `LeadsRoute.LeadTable.SelectBySession` | src/app/api/leads/route.ts:13-17 | the pass over the table gives what `.single()` gives: the session's lead when exactly one row has the session, and none otherwise |
| `LeadsRoute.LeadTable.UpdateRows` | src/app/api/leads/route.ts:21-29 | the pass over the table leaves the rows of `UpdateById`: every row with the id patched, no other row changed |
| `LeadsRoute.LeadTable.Post` | src/app/api/leads/route.ts:4-62 | the new table and the answer are those of `PostLead`; ids stay unique |
| `LeadsRoute.LeadTable.Get` | src/app/api/leads/route.ts:64-91 | the answer is that of `GetLead` |
| `LeadsRoute.UpdateKeepsValid` | src/app/api/leads/route.ts:21-29 | an update keeps ids, and so keeps the table valid |
| `LeadsRoute.PatchKeepsIdentity` | src/app/api/leads/route.ts:23-28 | a patch writes each truthy field of the body, keeps each field the body leaves falsy, and sets the timestamp; id, session and status stay |
| `LeadsRoute.PatchIdempotent` | src/app/api/leads/route.ts:23-28 | repeating a save changes nothing more |
| `LeadsRoute.UpdateNotInsert` | src/app/api/leads/route.ts:12-35 | a session with one lead has it patched in place; nothing is inserted and the answer says updated |
| `LeadsRoute.InsertOtherwise` | src/app/api/leads/route.ts:39-54 | without a truthy session, or when the session has no lead or several, one lead is appended with the body's fields, the session, status "active" and a fresh id; the answer says created |
| `LeadsRoute.FailureLeavesTable` | src/app/api/leads/route.ts:33-60 | 500 exactly for an unreadable body or a failed write, and then the table is unchanged |
| `LeadsRoute.PostKeepsValid` | src/app/api/leads/route.ts:4-62 | `POST` keeps ids unique |
| `LeadsRoute.PostKeepsSessionsUnique` | src/app/api/leads/route.ts:12-54 | while lookups succeed, no truthy session gets a second lead |
| `LeadsRoute.LookupFailureDuplicatesSession` | src/app/api/leads/route.ts:13-54 | a failed lookup for a session that has a lead inserts a second one, after which `GET` answers null for it |
| `LeadsRoute.GetAnswers` | src/app/api/leads/route.ts:64-83 | 400 exactly without a truthy session; 500 exactly when the query fails; null exactly when the session has no lead or several; a lead returned belongs to the session |
| `ProductCatalog.InitialTeam` | src/components/catalog/ProductCatalog.tsx:31 | the selected team starts as the truthy `teamFilter`, and as "" otherwise |
| `ProductCatalog.FilterIsSubsequence` | src/components/catalog/ProductCatalog.tsx:49-54 | the filtered list is a subsequence of the products, in their order |
| `ProductCatalog.FilterKeepsExactly` | src/components/catalog/ProductCatalog.tsx:49-54 | a product is listed exactly when it is in the catalog and passes both tests |
| `ProductCatalog.EmptyFilterKeepsAll` | src/components/catalog/ProductCatalog.tsx:50-53 | an empty search with no team lists every product |
| `ProductCatalog.FilterIdempotent` | src/components/catalog/ProductCatalog.tsx:49-54 | filtering again changes nothing |
| `ProductCatalog.DistinctIsSet` | src/components/catalog/ProductCatalog.tsx:56 | `[...new Set(xs)]` has no duplicates and holds exactly the values of xs |
| `ProductCatalog.DistinctFirstOccurrenceOrder` | src/components/catalog/ProductCatalog.tsx:56 | of two listed teams, the earlier one first occurs before the later one first occurs |
| `ProductCatalog.TeamsAreTheCatalogsTeams` | src/components/catalog/ProductCatalog.tsx:56 | the team chips list every team of the catalog once, and nothing else |
| `ChatContextState.Toggle` | src/contexts/ChatContext.tsx:33 | `toggleExpanded` flips the panel and keeps the selection |
| `ChatContextState.Select` | src/contexts/ChatContext.tsx:35-38 | `selectProduct` selects the product and expands the chat |
| `ChatContextState.Clear` | src/contexts/ChatContext.tsx:40 | `clearSelectedProduct` drops the selection and keeps the panel as it is |
| `ChatContextState.ToggleTwice` | src/contexts/ChatContext.tsx:33 | toggling twice changes nothing |
| `ChatContextState.ClearAfterSelect` | src/contexts/ChatContext.tsx:35-40 | selecting and then clearing leaves the chat expanded with nothing selected |
| `ChatContextState.SelectReplaces` | src/contexts/ChatContext.tsx:35-38 | a second selection replaces the first |
| `ChatContextState.ChatProvider.constructor` | src/contexts/ChatContext.tsx:30-31 | the chat starts expanded with nothing selected |
| `ChatContextState.ChatProvider.SetIsExpanded` | src/contexts/ChatContext.tsx:30 | sets the flag and keeps the selection |
| `ChatContextState.ChatProvider.ToggleExpanded` | src/contexts/ChatContext.tsx:33 | the new state is `Toggle` of the old |
| `ChatContextState.ChatProvider.SelectProduct` | src/contexts/ChatContext.tsx:35-38 | the new state is `Select` of the old |
| `ChatContextState.ChatProvider.ClearSelectedProduct` | src/contexts/ChatContext.tsx:40 | the new state is `Clear` of the old |
| `ChatContextState.UseChatContext` | src/contexts/ChatContext.tsx:56-62 | fails, with its message, exactly outside a provider, and returns the provider otherwise |
| `ChatInputBox.ButtonEnabledIffSends` | src/components/chat/ChatInput.tsx:18-89 | the send button is enabled exactly when a click calls `onSend` |
| `ChatInputBox.SentIsTrimmed` | src/components/chat/ChatInput.tsx:19-33 | what is sent is exactly the box's text trimmed, and it is non-empty |
| `ChatInputBox.BlankOrDisabledNeverSends` | src/components/chat/ChatInput.tsx:19-30 | white space only, or a disabled box, never sends |
| `ChatInputBox.ChatInput.constructor` | src/components/chat/ChatInput.tsx:15 | the box starts empty |
| `ChatInputBox.ChatInput.SetValue` | src/components/chat/ChatInput.tsx:70 | typing replaces the value |
| `ChatInputBox.ChatInput.HandleSend` | src/components/chat/ChatInput.tsx:18-40 | `onSend` gets `Sent` of the value and the disabled flag; the box is cleared exactly after a send |
| `ChatInputBox.ChatInput.HandleKeyDown` | src/components/chat/ChatInput.tsx:42-48 | Enter without Shift prevents the newline and sends; any other key sends nothing and keeps the value |
| `Rotation.Next` | src/components/home/BannerCarousel.tsx:46-53 | one step forward stays on the ring |
| `Rotation.Prev` | src/components/home/BannerCarousel.tsx:59 | one step back stays on the ring |
| `Rotation.NextCases` | src/components/layout/PromoBanner.tsx:40 | forward moves one on, and wraps from the last to the first |
| `Rotation.PrevCases` | src/components/layout/PromoBanner.tsx:39 | back moves one back, and wraps from the first to the last |
| `Rotation.PrevNextInverse` | src/components/layout/PromoBanner.tsx:39-40 | back undoes forward, and forward undoes back |
| `BannerCarousel.Carousel.constructor` | src/components/home/BannerCarousel.tsx:38-39 | the first banner, with auto-play on |
| `BannerCarousel.Carousel.Current` | src/components/home/BannerCarousel.tsx:77-85 | the banner shown is one of the banners |
| `BannerCarousel.Carousel.GoToNext` | src/components/home/BannerCarousel.tsx:52-56 | one banner on, and auto-play off |
| `BannerCarousel.Carousel.GoToPrev` | src/components/home/BannerCarousel.tsx:58-62 | one banner back, and auto-play off |
| `BannerCarousel.Carousel.DotClick` | src/components/home/BannerCarousel.tsx:108-115 | exactly the dot's banner, and auto-play off |
| `BannerCarousel.Carousel.Hover` | src/components/home/BannerCarousel.tsx:67-68 | entering pauses auto-play and leaving resumes it; the banner stays |
| `BannerCarousel.Carousel.ResumeTimerFires` | src/components/home/BannerCarousel.tsx:55 | the timeout turns auto-play back on |
| `BannerCarousel.Carousel.Tick` | src/components/home/BannerCarousel.tsx:42-50 | while auto-playing, one banner on; otherwise nothing moves |
| `BannerCarousel.WrapsAround` | src/components/home/BannerCarousel.tsx:16-59 | three banners; forward from the last is the first, back from the first is the last |
| `PromoBanner.OffsetPercent` | src/components/layout/PromoBanner.tsx:46 | the track moves one full width per slide, to the left |
| `PromoBanner.OffsetsDistinct` | src/components/layout/PromoBanner.tsx:46 | different slides sit at different offsets |
| `PromoBanner.Promo.constructor` | src/components/layout/PromoBanner.tsx:29 | the first slide |
| `PromoBanner.Promo.GoToSlide` | src/components/layout/PromoBanner.tsx:38 | exactly the dot's slide |
| `PromoBanner.Promo.PrevSlide` | src/components/layout/PromoBanner.tsx:39 | one slide back around the ring |
| `PromoBanner.Promo.NextSlide` | src/components/layout/PromoBanner.tsx:40 | one slide on around the ring |
| `PromoBanner.Promo.Tick` | src/components/layout/PromoBanner.tsx:31-36 | the timer's step is the same as `nextSlide` |
| `PromoBanner.Promo.Offset` | src/components/layout/PromoBanner.tsx:46 | the offset of the slide shown lies between -200% and 0 |
| `AdminSidebar.ActiveItems` | src/components/admin/AdminSidebar.tsx:31-33 | exactly the items whose rule holds for the path |
| `AdminSidebar.DashboardOnlyExact` | src/components/admin/AdminSidebar.tsx:32-33 | the dashboard is active exactly on "/admin" |
| `AdminSidebar.SubpagesActive` | src/components/admin/AdminSidebar.tsx:33 | products and leads are active exactly on the paths that start with their href |
| `AdminSidebar.SiblingPathActive` | src/components/admin/AdminSidebar.tsx:33 | the prefix test is on characters: "/admin/products-archive" makes Produtos active |
| `AdminSidebar.AtMostOneActive` | src/components/admin/AdminSidebar.tsx:8-33 | with these three hrefs, no path makes two items active |
| `ProductForm.InitialSizesText` | src/components/admin/ProductForm.tsx:39 | the sizes joined by ", " when that text is not empty, and "P, M, G, GG" when there are no sizes or the joined text is empty; never empty |
| `ProductForm.JoinEmpty` | src/components/admin/ProductForm.tsx:39 | the joined text is empty exactly for no sizes or one empty size |
| `ProductForm.InitialForm` | src/components/admin/ProductForm.tsx:31-43 | create mode gives the defaults ("24/25", "home", the four sizes, active, no image); edit mode keeps the name and team, keeps a non-empty season and type and defaults an empty one, starts the sizes field from `InitialSizesText`, keeps an explicit inactive flag, and keeps the image URL or uses "" |
| `ProductForm.ExplicitInactiveKept` | src/components/admin/ProductForm.tsx:41 | `??` keeps an explicit false |
| `ProductForm.ParseSizes` | src/components/admin/ProductForm.tsx:52 | one size more than there are commas |
| `ProductForm.ParsedSizesClean` | src/components/admin/ProductForm.tsx:52 | every parsed size is trimmed and holds no comma |
| `ProductForm.JoinThenParse` | src/components/admin/ProductForm.tsx:39-52 | parsing the joined text of a non-empty list of trimmed, comma-free sizes gives the list back |
| `ProductForm.DefaultSizesJoined` | src/components/admin/ProductForm.tsx:39 | the default text is P, M, G and GG joined |
| `ProductForm.DefaultSizes` | src/components/admin/ProductForm.tsx:39-52 | the default text parses to P, M, G and GG |
| `ProductForm.UntouchedSizesResubmitted` | src/components/admin/ProductForm.tsx:39-52 | an untouched form sends the product's sizes back as they were, and the four defaults when it had none |
| `ProductForm.SubmitTarget` | src/components/admin/ProductForm.tsx:55-60 | PUT exactly when editing, POST exactly when creating; the URL is the collection, or the collection, a slash and the product's id |

## Left out

- I/O and time are inputs, not modelled:
  - The auth provider, the `MP_ACCESS_TOKEN` variable, the outcome of every database call, the gateway's answer and the e-mail provider's answer are inputs of a request.
  - Ids that the code builds from `Date.now()` are parameters, and so is the clock text that `toISOString` produces.
  - The banner timers (the 4-second interval, the 10-second resume timeout, the 5-second promo interval) are events.
- `generateSessionId` is left out: it draws on randomness and the clock.
- Concurrency is left out, and so are pending timers:
  - Requests run one after another.
  - The `saveLead` calls of one message are returned in order and never awaited.
  - Resume timeouts that are set but not yet fired are not tracked. A timeout set by an earlier click can therefore resume auto-play early, or during a hover, and the model does not show this.
- Money is an integer. `Number(transactionAmount)`, `toFixed` and the price fields of the product form are floating point in the source. The form's numeric fields are not modelled.
- Database-generated uuids are a counter:
  - Order and lead ids are counters, not uuids.
  - `order.id.slice(0, 8)` takes the first eight digits of the counter.
  - Catalog product ids are non-empty strings.
- Checkout inputs and outputs that are not modelled:
  - A request body that is not JSON is not modelled: the checkout request is already decoded.
  - `details: error.cause` in the error answer is not modelled.
  - The HTML text of the e-mail is not modelled, except its subject and whether it announces a confirmed payment or carries the PIX reminder.
- `ilike` is a case-insensitive substring test. Wildcard characters inside the product name are taken literally.
- Text handling is simplified:
  - Strings are Unicode scalar values.
  - `toLowerCase` is modelled over ASCII and Latin-1 only.
  - `TextDecoder` is not modelled: streamed chunks arrive already decoded.
- Console logging is not modelled: the `console.error` calls in both routes and on the chat page, and the `console.log` calls that trace `handleSend` in the chat text box. None of them changes state or an answer.
- The chat page's user interface is not modelled: scrolling, textarea resizing and rendering. The same goes for the catalog's product fetch and its `loading` flag, and for the product form's `loading` flag, `router.push` and `alert`.
- `BannerCarousel.Carousel.DotClick`: requires the index to name a banner. The code would set any number, but its only callers are the dots, one per banner.
- `PromoBanner.Promo.GoToSlide`: requires the index to name a slide, for the same reason: its only callers are the dots.
- The routes and pages outside this core are not part of this model: auth, products, chat, seed and the admin and account pages.
