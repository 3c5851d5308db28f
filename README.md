# Agentia World site: chat route and UI state machines

A model of the logic inside the Agentia World marketing site. That logic is a chat proxy
route plus the small state machines behind six interactive components:

- **Chat route** (`ChatRoute`, pure). `POST /api/chat` reads the last element of the request's
  `messages`. It forwards that element's `content` to a hosted text-generation endpoint with
  `max_new_tokens` 50 and `return_full_text` false, and answers `{role: "assistant", content}`.
  The content is the first `generated_text`, or a fixed greeting when there is none, or a
  fixed apology when anything throws. Every path answers 200 with the same CORS headers.
  `OPTIONS` answers the preflight.
- **Chat widget** (`ChatWidget.Chatbot`). It keeps an append-only log that starts with a welcome
  message. A non-blank submit logs the trimmed text, clears the input and raises the loading
  flag. When the fetch settles it logs one bot message, either `data.response` or a fixed
  apology, and lowers the flag.
- **Contact form** (`ContactForm.Contact`). Four fields, a submitting flag and an idle/success/error
  status. Success clears the fields and failure keeps them. A timer event returns the status
  to idle.
- **FAQ accordion** (`Faq.Accordion`). At most one of five entries is expanded, and a click toggles it.
- **Project carousel** and **image slider** (`ProjectCarousel.Carousel`, `ImageSlider.Slider`).
  Each has a wrap-around index; the arithmetic is shared in `Cyclic`. The slider adds autoplay
  ticks, a swipe threshold rule and a lightbox that copies the index.
- **Navbar** (`Navbar.NavBar`). The bar hides when scrolling down past 100 px with the menu closed.
  The active section is the first one, in menu order, whose rectangle spans the line 100 px
  below the viewport top. The mobile menu has open and close transitions.

The external world enters only as parameters:
- the outcome of each `fetch` (`Upstream`, `ChatResponse`, `Outcome`);
- the outbound call of the route (a function from the request it sends to what comes back);
- timer expiry and autoplay ticks (events);
- the page layout at a scroll event (a map from element id to its top/bottom rectangle);
- drag offset and velocity (integers).

Async handlers are split at their `await`. The `Begin…` method covers everything before the
await and the `Complete…` method covers everything after it. A `Submit` method runs the two
back to back.

The widget and the route disagree on the wire format, and both are modelled as written. The
widget posts `{message}`, while the route reads `messages`. The route answers `{role, content}`,
while the widget reads `data.response`. `ChatWidget.RouteReplyNeverShown` proves what follows:
through the route, every submit gets the route's apology, and the widget logs a bot message
whose content is `undefined`.

Three facts about the code that the model reproduces:
- The route never checks the upstream HTTP status. A non-2xx answer whose body is a JSON
  array is used like a success.
- An empty or missing completion yields the greeting.
- Widget messages are typed `user`/`bot`.

## Model

| member | source | states |
|---|---|---|
| `ChatRoute.Forwarded` | src/app/api/chat/route.ts:14-29 | a request goes upstream exactly when the body parses, has a non-empty `messages` array and its last element is not null; what goes upstream is only that element's `content`, with 50 new tokens and no full text |
| `ChatRoute.FirstText` | src/app/api/chat/route.ts:40 | `result[0]?.generated_text` is usable only when the upstream sent an array whose first element is a non-empty string; otherwise that element is missing or empty |
| `ChatRoute.Throws` | src/app/api/chat/route.ts:32-36 | the `try` throws on a failed fetch, a body that is not JSON, a JSON `null` (reading `.error` of null), and an object with a truthy `error`; it does not throw on a number, string or boolean, or on an array |
| `ChatRoute.Respond` | src/app/api/chat/route.ts:32-48 | every reply is 200, role "assistant", the POST headers; content is the apology when the call throws (fetch failure, non-JSON, JSON `null`, truthy `error`), else the first generated text, else the greeting |
| `ChatRoute.Post` | src/app/api/chat/route.ts:5-50 | every path, failures included, answers 200 with role "assistant" and the same header set; a body that makes line 15 throw gets the apology; otherwise the reply is what the upstream outcome for the forwarded request gives |
| `ChatRoute.Options` | src/app/api/chat/route.ts:52-60 | the preflight carries exactly the POST headers other than `Content-Type` |
| `ChatRoute.UpstreamErrorIsHidden` | src/app/api/chat/route.ts:34-48 | an upstream `error` produces the apology and its text is never relayed |
| `ChatRoute.GeneratedTextIsRelayed` | src/app/api/chat/route.ts:38-41 | a non-empty first `generated_text` is returned verbatim as the content |
| `ChatRoute.MissingTextGivesGreeting` | src/app/api/chat/route.ts:40 | an array answer without a usable first text gives the fixed greeting |
| `ChatRoute.NonObjectAnswers` | src/app/api/chat/route.ts:32-40 | a JSON `null` answer gets the apology; a number, string or boolean answer gets the greeting |
| `ChatRoute.OnlyLastMessageMatters` | src/app/api/chat/route.ts:15-24 | two histories that end in the same message get the same reply for every upstream behaviour |
| `ChatRoute.MissingMessagesGivesApology` | src/app/api/chat/route.ts:13-49 | an unparseable body, a missing `messages` and an empty array all get the apology instead of an error |
| `ChatWidget.RequestFor` | src/components/AIChatbot.tsx:65-73 | the widget's `{message}` body, as the route reads it, is never forwarded upstream |
| `ChatWidget.ClientView` | src/app/api/chat/route.ts:38-41 | the widget sees the route's reply as an ok response whose JSON has exactly the members `role` and `content` |
| `ChatWidget.BotReply` | src/components/AIChatbot.tsx:75-91 | the appended message is always a bot message; it differs from the apology only if the response was ok, parsed, and had no truthy `error`, and then it holds `data.response` (undefined when absent) |
| `ChatWidget.RouteReplyNeverShown` | src/components/AIChatbot.tsx:70-85 | end to end through the route, the reply is always the route's apology and the widget logs a bot message with undefined content |
| `ChatWidget.IsBlank` | src/components/AIChatbot.tsx:57 | the submit guard `!inputMessage.trim()` holds exactly for the inputs made only of whitespace and line terminators, the empty input included |
| `ChatWidget.LoggedTextIsTypedText` | src/components/AIChatbot.tsx:59-61 | a typed text padded with whitespace is accepted and logged without the padding |
| `ChatWidget.Chatbot.constructor` | src/components/AIChatbot.tsx:17-27 | the history is exactly the welcome message; closed, empty input, not loading, no frame |
| `ChatWidget.Chatbot.SetInput` | src/components/AIChatbot.tsx:208 | typing changes only the input |
| `ChatWidget.Chatbot.Toggle` | src/components/AIChatbot.tsx:46-53 | flips `isOpen`; closing also resets `iframeLoaded`; the log is unchanged |
| `ChatWidget.Chatbot.OpenWindow` | src/components/AIChatbot.tsx:101 | the launcher opens the window and changes nothing else |
| `ChatWidget.Chatbot.CloseWindow` | src/components/AIChatbot.tsx:121 | the backdrop (and the close button at line 147) closes the window and changes nothing else |
| `ChatWidget.Chatbot.BeginSubmit` | src/components/AIChatbot.tsx:55-62 | blank input changes no state and sends nothing; otherwise the input is cleared, exactly one user message with the trimmed text is appended, loading is on, and that text is sent |
| `ChatWidget.Chatbot.CompleteSubmit` | src/components/AIChatbot.tsx:64-94 | exactly one bot message is appended (the old log is a prefix) and loading is off on success and failure alike |
| `ChatWidget.Chatbot.Submit` | src/components/AIChatbot.tsx:55-95 | a whole non-blank submit appends exactly a user message and then a bot message and ends not loading; a blank one changes nothing |
| `JsText.TrimStart` | src/components/AIChatbot.tsx:57-59 | the result is the suffix after a leading run of whitespace, and it does not start with whitespace |
| `JsText.TrimEnd` | src/components/AIChatbot.tsx:57-59 | the result is the prefix before a trailing run of whitespace, and it does not end with whitespace |
| `JsText.Trim` | src/components/AIChatbot.tsx:57-59 | `trim()` is empty exactly when every character is whitespace, and a non-empty result neither starts nor ends with whitespace |
| `JsText.TrimRemovesPadding` | src/components/AIChatbot.tsx:59 | `trim()` removes exactly the surrounding whitespace: padding on either side of a text with non-blank ends is stripped and nothing else |
| `JsText.TrimIdempotent` | src/components/AIChatbot.tsx:57-59 | trimming a trimmed text changes nothing |
| `Cyclic.Next` | src/components/ProjectCarousel.tsx:157-159 | `(i + 1) % n` stays in range and wraps from the last index to 0 |
| `Cyclic.Previous` | src/components/ProjectCarousel.tsx:153-155 | `(i - 1 + n) % n` stays in range and wraps from 0 to the last index |
| `Cyclic.NextPreviousInverse` | src/components/ProjectCarousel.tsx:153-159 | next then previous, and previous then next, restore the index |
| `Cyclic.Advance` | src/components/ImageSlider.tsx:33-35 | any number of next steps (autoplay ticks) keeps the index in range |
| `Cyclic.AdvanceWithinOneTurn` | src/components/ImageSlider.tsx:33-35 | up to `n` next steps move the index `k` places, wrapping past the end once |
| `Cyclic.FullTurn` | src/components/ProjectCarousel.tsx:157-159 | `n` consecutive next steps return to the starting index |
| `Cyclic.ExactlyOneHighlighted` | src/components/ProjectCarousel.tsx:83-113 | exactly one slide is drawn as current when the index is in range |
| `ContactForm.With` | src/components/Contact.tsx:158 | editing a field sets that field and leaves the other three unchanged |
| `ContactForm.Payload` | src/components/Contact.tsx:37 | the posted JSON has the members name, email, subject, message in that order |
| `ContactForm.PayloadRoundTrip` | src/components/Contact.tsx:37 | reading the posted payload back gives the form that was posted |
| `ContactForm.Banner` | src/components/Contact.tsx:198-211 | a banner shows exactly when the status is not idle, with the success or the error text |
| `ContactForm.Settle` | src/components/Contact.tsx:40-50 | status is success exactly on an ok response, and then all four fields are empty; on a non-ok response or a thrown fetch it is error and the fields are kept |
| `ContactForm.EditsCommute` | src/components/Contact.tsx:156-174 | re-typing a field's own value is a no-op, and edits of different fields commute |
| `ContactForm.SettledSubmitShowsBanner` | src/components/Contact.tsx:198-211 | every settled submit shows a banner: the success text exactly on an ok response |
| `ContactForm.Contact.constructor` | src/components/Contact.tsx:16-24 | four empty fields, not submitting, status idle |
| `ContactForm.Contact.Edit` | src/components/Contact.tsx:174 | an input's `onChange` changes only its field; flag and status are unchanged |
| `ContactForm.Contact.BeginSubmit` | src/components/Contact.tsx:26-38 | submitting is on and the current fields are posted |
| `ContactForm.Contact.CompleteSubmit` | src/components/Contact.tsx:40-51 | submitting is off on every path, and status and fields are as `Settle` says |
| `ContactForm.Contact.StatusTimerExpired` | src/components/Contact.tsx:53 | the timer returns the status to idle whatever it was and touches nothing else |
| `ContactForm.Contact.Submit` | src/components/Contact.tsx:26-55 | a whole submit posts the fields it started with, ends not submitting, and settles as `Settle` says |
| `Faq.Toggled` | src/components/FAQ.tsx:77 | after a click the clicked entry is expanded exactly when it was not before, and no other entry is expanded |
| `Faq.AtMostOneExpanded` | src/components/FAQ.tsx:95 | at most one entry is expanded, and exactly one when `activeIndex` is set |
| `Faq.ClicksStayValid` | src/components/FAQ.tsx:67-77 | any sequence of clicks keeps `activeIndex` null or a valid index into the five entries |
| `Faq.ClickTwice` | src/components/FAQ.tsx:77 | two clicks on one entry restore a collapsed state (or that entry expanded), and collapse everything if another entry was open |
| `Faq.Accordion.constructor` | src/components/FAQ.tsx:36 | no entry is expanded initially |
| `Faq.Accordion.Click` | src/components/FAQ.tsx:77 | a click applies `Toggled` and keeps the index valid |
| `ProjectCarousel.Carousel.constructor` | src/components/ProjectCarousel.tsx:151 | starts on slide 0 |
| `ProjectCarousel.Carousel.HandlePrevious` | src/components/ProjectCarousel.tsx:153-155 | one slide back with wrap-around, staying in [0, 4) |
| `ProjectCarousel.Carousel.HandleNext` | src/components/ProjectCarousel.tsx:157-159 | one slide forward with wrap-around, staying in [0, 4) |
| `ProjectCarousel.Carousel.HandleSlideClick` | src/components/ProjectCarousel.tsx:161-163 | the clicked slide becomes current, and the state is set only if it was not current already |
| `ProjectCarousel.Carousel.ActiveSlides` | src/components/ProjectCarousel.tsx:192-199 | exactly one slide and dot is drawn active, the current one |
| `ImageSlider.SwipeOf` | src/components/ImageSlider.tsx:41-51 | a drag with speed at most 500 and travel at most 100 does nothing; a qualifying drag goes forward if its offset is negative and back otherwise, offset 0 included |
| `ImageSlider.AfterSwipe` | src/components/ImageSlider.tsx:44-49 | the index after a swipe stays in [0, 3) |
| `ImageSlider.MirroredSwipesCancel` | src/components/ImageSlider.tsx:44-49 | a qualifying left drag followed by its mirror image to the right shows the original slide again |
| `ImageSlider.Slider.constructor` | src/components/ImageSlider.tsx:27-29 | slide 0, lightbox closed, lightbox index 0 |
| `ImageSlider.Slider.AutoplayTick` | src/components/ImageSlider.tsx:33-35 | a tick advances by one, wrapping from the last image to 0, and leaves the lightbox alone |
| `ImageSlider.Slider.DragEnd` | src/components/ImageSlider.tsx:41-51 | the index moves as `SwipeOf` says and stays in range |
| `ImageSlider.Slider.SelectDot` | src/components/ImageSlider.tsx:100-107 | dot `i` sets the index to `i` |
| `ImageSlider.Slider.OpenLightbox` | src/components/ImageSlider.tsx:75-78 | the lightbox opens with a copy of the current index |
| `ImageSlider.Slider.CloseLightbox` | src/components/ImageSlider.tsx:113-137 | closing clears `showLightbox` and keeps both indices |
| `ImageSlider.Slider.ActiveDots` | src/components/ImageSlider.tsx:100-105 | exactly one dot is drawn current |
| `Navbar.Sections` | src/components/Navbar.tsx:89 | one section id per menu item, in menu order: the label in lower case |
| `Navbar.Qualifies` | src/components/Navbar.tsx:93-95 | a section qualifies only if its element exists, and always when that element's rectangle spans line 100 |
| `Navbar.FirstMatchFrom` | src/components/Navbar.tsx:91-100 | the scan from a position finds the first qualifying section at or after it, or reports that none qualifies |
| `Navbar.FirstMatch` | src/components/Navbar.tsx:88-101 | the chosen section exists and spans line 100, and no earlier section does; nothing is chosen exactly when no section qualifies |
| `Navbar.VisibleAfter` | src/components/Navbar.tsx:78-82 | the bar hides only when scrolling down past 100 with the menu closed, and always in that case |
| `Navbar.SectionsAreLinkTargets` | src/components/Navbar.tsx:7-14 | the ids the scan looks for are the menu links' targets |
| `Navbar.NavBar.constructor` | src/components/Navbar.tsx:69-72 | visible, `lastScrollY` 0, active section "home", menu closed |
| `Navbar.NavBar.ControlNavbar` | src/components/Navbar.tsx:74-86 | visibility follows `VisibleAfter`; with the menu open the bar stays visible; `lastScrollY` becomes the observed position |
| `Navbar.NavBar.HandleScroll` | src/components/Navbar.tsx:88-101 | the loop with early break makes the first qualifying section active, or leaves the active section unchanged |
| `Navbar.NavBar.OnScrollFrame` | src/components/Navbar.tsx:107-116 | one frame runs `controlNavbar` then `handleScroll` |
| `Navbar.NavBar.ScrollToSection` | src/components/Navbar.tsx:123-129 | the menu closes only when the target element exists; a missing target leaves the menu alone |
| `Navbar.NavBar.ToggleMenu` | src/components/Navbar.tsx:190 | the menu button flips the open flag |
| `Navbar.NavBar.CloseMenu` | src/components/Navbar.tsx:218 | the backdrop (and the close button at line 235) closes the menu |

## Left out

- Network I/O: the three `fetch` calls, the bearer token read from the environment, and `console.error` logging. Each fetch outcome is a parameter.
- Timers and frames: `setTimeout`, `setInterval` and `requestAnimationFrame` are explicit events. The `ticking` throttle that merges scroll events into one frame is not modelled. Neither is the scheduling order of overlapping contact-form timers.
- DOM effects: `scrollIntoView`, removal of the chat iframes, the message-list auto-scroll and `document.body.style.overflow`. Rectangles are integers given per event.
- `ImageSlider.SwipeOf`: drag offset and velocity are floating point in the browser and integers here.
- `ChatRoute.Forwarded`: a `messages` member that is neither an array nor null/absent (a string, say) is not modelled.
- `ChatRoute.UpstreamErrorIsHidden`: an `error` member that is not a string is not modelled.
- `ChatRoute.FirstText`: a truthy `generated_text` that is not a string (a number, an object) is relayed as-is by the route; the model only has string texts.
- `ChatRoute.Forwarded`: a last `content` that is not a string is forwarded as-is by the route; the model only has string or absent contents.
- `ChatWidget.BotReply`: a response body that is JSON `null`, and non-string `error`/`response` members, are not modelled.
- `JsText.ToLower`: lower-cases ASCII only, which covers every menu label; full Unicode case mapping is not modelled.
- The `typeof window !== 'undefined'` guard in `controlNavbar` is not modelled, since the handler only runs in a browser.
- `ContactForm.Contact.Submit`: the browser's native validation is not modelled. The form has no `noValidate`, all four fields are `required` and the email field has type `email`, so the browser only calls the handler with four non-empty fields and a well-formed email. The model accepts a submit of any form.
- `Navbar.NavBar.ControlNavbar`: `window.scrollY` can be fractional in the browser; the model uses integers.
- The submit button is disabled while loading or submitting. This is markup, not handler logic, so the handlers accept a second submit just as the code does.
- Mouse-parallax offsets in the carousel's `Slide` (floating point).
- Animation configuration, static sections (About, Pricing, Services, HowItWorks, AgentiaWorld, Footer, Background, the page and layout), the shader effect in Hero, MacbookSlider's `setActiveProject` (the carousel's direct selection covers it), build configuration and the SDK client singletons.
- `handlePrevious` and `handleNext` are modelled even though no control in the carousel's markup calls them.
- `handleToggle` (`ChatWidget.Chatbot.Toggle`) is modelled even though no control calls it. The launcher, the backdrop and the close button call `setIsOpen` directly (`ChatWidget.Chatbot.OpenWindow`, `ChatWidget.Chatbot.CloseWindow`).
