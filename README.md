# Website interaction log, quiz, carousel, lightbox and swipe — a Dafny model

This project models the state-holding parts of a single-page personal
website's script (`script.js`), with the DOM taken away:

- **Interaction log** (`WebsiteAnalytics`). It keeps a session id and a start time, both fixed at construction. It also keeps an append-only sequence of event records. Every append overwrites the browser storage key `websiteAnalytics` with the session id and the whole sequence. `getAnalytics` returns a snapshot. Browser storage is a `map<string, Stored>` field of the object.
- **Quiz** (`QuizState`). Ten questions. It keeps the current question, a partial answer map, the Previous and Next button flags, and whether Next has become "Finish Quiz". The score is counted against a fixed answer key, and one of five message bands is picked by thresholds.
- **Carousel** (`CarouselState`). A slide index moved by next and previous, using JavaScript's truncating `%`. The indicator dots can also jump it directly, with no bounds check.
- **Lightbox** (`LightboxState`). The gallery images and the index of the one shown. `openLightbox` sets the index with a substring `findIndex`, so it can be -1. Next and previous then wrap.
- **Swipe** (`TouchState`). The touch start, move and end handlers, and the pure threshold decision of `handleSwipe`.

The script's module-level variables become the fields of one small class per component. The global `analytics` object becomes a `WebsiteAnalytics` argument, passed to every handler that logs. Each mutating method states its whole new state. For the log, it states this through the value-level model `Logged` / `LoggedAll`. The properties are proved as lemmas about these functions:

- appending only adds at the end;
- the stored copy mirrors the log;
- the score is a count;
- the message bands are exact;
- the index wraps around;
- the swipe is classified correctly.

Clocks, the random session token and event timestamps are inputs. A handler gets one timestamp `at` and uses it for every record it logs.

Modules: `Numbers` (JavaScript `%`, `Math.round`, decimal rendering), `Analytics`, `Quiz`, `Wrap` (next/previous index arithmetic shared by carousel and lightbox), `Carousel`, `Lightbox`, `Swipe`.

Behaviour of the code as written that the model keeps:

- `updateLightboxImage` always logs `direction: 'next'`, even when `prevLightboxImage` calls it.
- `currentSlide(index)` can put the carousel index out of range (`JumpCanLeaveRange`). A single next or previous step brings any index of -1 or more back into range (`StepsLandInRange`). Below -1, the truncating `%` can keep the index negative (`NegativeIndexCanPersist`).
- `nextQuestion` re-enables Next only for a non-empty stored answer (JavaScript truthiness).
- `selectAnswer` does not check its question number.
- `isSwiping` is not cleared at touch end, only at the next touch start.
- A swipe logs three events: the slide view, the next/previous click, and `carousel_swipe`.

Constants of script.js that the model uses:

- The quiz has ten questions with answer key `C C A D D B A D C D` (script.js:159-170).
- The message bands are 10, at least 8, at least 6, at least 4, and the rest (script.js:276-286).
- `timeSpent` is `Math.round` of the elapsed seconds (script.js:117).

## Model

| member | source | states |
|---|---|---|
| `Numbers.Abs` | script.js:647-648 | `Math.abs`: the result is x or -x and never negative |
| `Numbers.JsRem` | script.js:544 | JavaScript `%` with a positive divisor: a = q·b + r where q is a / b truncated toward zero; so r is the Euclidean remainder for a non-negative dividend and lies in (-b, 0] for a negative one |
| `Numbers.RoundedSeconds` | script.js:117 | `Math.round(ms / 1000)`: the result r satisfies -500 <= ms - 1000·r < 500 |
| `Numbers.NatToDecimal` | script.js:26 | the rendering of a non-negative integer is a non-empty digit string with no leading zero |
| `Numbers.DecimalRoundTrip` | script.js:26 | reading back the rendered digits gives the integer |
| `Numbers.DecimalInjective` | script.js:11 | different integers render differently |
| `Analytics.SessionId` | script.js:10-12 | the id is `session_`, then exactly the decimal digits of the clock reading, then `_`, then the random token |
| `Analytics.SessionIdInjective` | script.js:10-12 | the session id determines the clock reading and the token |
| `Analytics.ScreenResolution` | script.js:26 | `WxH` has exactly one `x`, and the digits before and after it read back as the width and the height |
| `Analytics.Logged` | script.js:101-107 | one `logInteraction`: the record is appended at the end, the session id is kept, and the stored copy equals the new log |
| `Analytics.LoggedAll` | script.js:101-107 | a run of appends keeps the session id, grows the log by the number of records, and leaves the stored copy equal to the log when anything was appended |
| `Analytics.LoggedAppendsOne` | script.js:101-107 | one append adds exactly one record at the end, keeps earlier records and the session id, stores exactly `{sessionId, interactions}` under `websiteAnalytics`, and leaves every other key alone |
| `Analytics.LoggedAllAppends` | script.js:101-107 | N appends extend the log by exactly those N records in call order; the session id is stable; the stored copy equals the whole in-memory log |
| `Analytics.LoggedAllKeepsPrefix` | script.js:101-107 | appends never change or remove an earlier record |
| `Analytics.WebsiteAnalytics.constructor` | script.js:3-30 | the session id and start time come from the inputs; the log holds exactly one `page_load` record with user agent, `WxH` resolution and language; the store is the previous store with the fixed key overwritten |
| `Analytics.WebsiteAnalytics.TrackPageLoad` | script.js:20-30 | appends the `page_load` record through `logInteraction` |
| `Analytics.WebsiteAnalytics.LogInteraction` | script.js:101-111 | new log = old log + [data]; the store's fixed key holds the session id and the whole new log; the invariant is preserved |
| `Analytics.WebsiteAnalytics.GetAnalytics` | script.js:113-120 | the snapshot's `totalInteractions` equals the length of its `interactions`, which equal the log; the session id is the object's; `timeSpent` is the rounded elapsed seconds; nothing is modified |
| `Quiz.KeyCoversQuestions` | script.js:159-170 | the answer key has an entry for every question 1..10 |
| `Quiz.Matches` | script.js:257 | only an answered question 1..10 can match the key; an unanswered one never does |
| `Quiz.MatchesUpTo` | script.js:255-260 | the count of correct answers among 1..n is at most n |
| `Quiz.Score` | script.js:255-260 | the score is at most 10 |
| `Quiz.MatchesUpToIsCardinality` | script.js:255-260 | the count over 1..n equals the size of the set of correctly answered questions in 1..n |
| `Quiz.MatchesUpToFull` | script.js:255-260 | the count over 1..n equals n exactly when every question 1..n matches the key |
| `Quiz.ScoreCharacterization` | script.js:255-260 | the score is the number of i in 1..10 with `quizAnswers[i] == correctAnswers[i]` (unanswered counts as wrong), and 0 <= score <= 10 |
| `Quiz.PerfectScoreIff` | script.js:255-277 | score 10 holds exactly when every question is answered correctly (both directions) |
| `Quiz.NoAnswersScoreZero` | script.js:304-307 | the empty answer map left by restart scores 0 |
| `Quiz.MatchesUpToAfterSelect` | script.js:182 | overwriting one answer changes the count only by that question's old and new match |
| `Quiz.ScoreAfterSelect` | script.js:182 | selecting outside 1..10 leaves the score unchanged; inside, the score moves by at most one, according to the old and new answer for that question |
| `Quiz.CountScore` | script.js:255-260 | the `score++` loop over 1..10 computes `Score`, and the result is at most 10 |
| `Quiz.BandFor` | script.js:276-286 | the Perfect band is chosen exactly for a score of 10, the last band exactly for a score below 4 |
| `Quiz.BandIntervals` | script.js:276-286 | the five bands partition 0..10: 10, 8..9, 6..7, 4..5, 0..3 |
| `Quiz.BandMonotone` | script.js:276-286 | a higher score never gets a lower band |
| `Quiz.Message` | script.js:276-286 | each band's text, recognisable by its opening letters (`Pe`, `Am`, `Gr`, `Go`, `We`) |
| `Quiz.MessagesDistinct` | script.js:276-286 | different bands show different messages |
| `Quiz.HasAnswer` | script.js:213 | the truthiness test is true only for a question with a stored answer |
| `Quiz.HasAnswerAfterSelect` | script.js:182-213 | after `selectAnswer(q, a)`, question q counts as answered exactly when `a` is non-empty, and every other question keeps its status |
| `Quiz.QuizState.constructor` | script.js:1167-1175 | question 1, no answers, both buttons disabled (as the DOMContentLoaded handler sets them), Next mode |
| `Quiz.QuizState.SelectAnswer` | script.js:172-194 | `quizAnswers[q] = a` overwrites, other answers are unchanged, Next is enabled, `quiz_answer` is logged |
| `Quiz.QuizState.NextQuestion` | script.js:196-226 | below 10: index + 1, Previous enabled, Next enabled exactly when the new question has a truthy answer, Finish mode exactly at 10; at 10 nothing changes; 1 <= index <= 10 is kept |
| `Quiz.QuizState.PreviousQuestion` | script.js:228-246 | above 1: index - 1, Next enabled in Next mode, Previous disabled exactly at 1; at 1 nothing changes |
| `Quiz.QuizState.FinishQuiz` | script.js:248-302 | the returned score is `Score(quizAnswers)`, the band is `BandFor(score)`, the message is that band's text, the result is shown, `quiz_completed` is logged with score, total and answers |
| `Quiz.QuizState.RestartQuiz` | script.js:304-333 | index 1, answers empty, result hidden, both buttons disabled, Next mode, `quiz_restarted` logged |
| `Wrap.NextIndex` | script.js:525 | `(i + 1) % n` is in [0, n) for every index of -1 or more, and in (-n, 0] below that |
| `Wrap.PrevIndex` | script.js:544 | `(i - 1 + n) % n` is in [0, n) for every index of 1 - n or more, and in (-n, 0] below that |
| `Wrap.StepsLandInRange` | script.js:523-553 | for n > 0, next and previous map every index >= -1 into [0, n) |
| `Wrap.WrapsAtEnds` | script.js:893-901 | next from n-1 gives 0; previous from 0 gives n-1 |
| `Wrap.NextInRangeIs` | script.js:523-540 | on an index in range, next is +1, except that n-1 goes to 0 |
| `Wrap.PrevInRangeIs` | script.js:542-553 | on an index in range, previous is -1, except that 0 goes to n-1 |
| `Wrap.PrevUndoesNext` | script.js:523-553 | on an index in range, previous undoes next and next undoes previous |
| `Wrap.NextTimesIsOffset` | script.js:523-540 | k <= n presses of next from i give i + k, wrapped once past the end |
| `Wrap.FullCycle` | script.js:523-540 | n presses of next return to the starting index |
| `Wrap.NextTimesAdd` | script.js:523-540 | a presses followed by b presses equal a + b presses |
| `Wrap.NextTimesPeriodic` | script.js:523-540 | presses of next are periodic with period n and stay in range |
| `Wrap.NextTimesStaysInRange` | script.js:523-540 | any number of presses of next keeps an in-range index in range |
| `Wrap.FourSlidesScenario` | script.js:523-540 | with 4 slides, three presses of next from 0 give 3 and a fourth gives 0 |
| `Wrap.NegativeIndexCanPersist` | script.js:523-566 | an index below -1, reachable only through `currentSlide`, can stay negative after next or previous |
| `Carousel.CarouselState.constructor` | script.js:497-500 | index 0 over a fixed slide count |
| `Carousel.CarouselState.ShowSlide` | script.js:502-521 | logs `carousel_slide_viewed` with the index |
| `Carousel.CarouselState.NextSlide` | script.js:523-540 | index becomes `(i + 1) % n`; logs the slide view, then `carousel_next_clicked` from/to |
| `Carousel.CarouselState.PrevSlide` | script.js:542-553 | index becomes `(i - 1 + n) % n`; logs the slide view, then `carousel_prev_clicked` from/to |
| `Carousel.CarouselState.CurrentSlide` | script.js:555-566 | index becomes `index - 1`, unchecked; logs the slide view, then `carousel_indicator_clicked` |
| `Carousel.JumpCanLeaveRange` | script.js:555-557 | a jump lands in range exactly for indicator numbers 1..n; 0 and n+1 leave the range |
| `Lightbox.GalleryImages` | script.js:818-829 | one image per gallery source, with empty title and description |
| `Lightbox.Includes` | script.js:841 | `includes` holds only when the substring is no longer than the string, and always for the empty substring |
| `Lightbox.FindFrom` | script.js:841 | the first position from `from` whose source contains the searched string, or -1 exactly when there is none |
| `Lightbox.FindIndex` | script.js:841 | `findIndex`: -1 exactly when no image source contains the string; otherwise the first such index |
| `Lightbox.FindIndexOfOwnSource` | script.js:841 | searching for an image's own full source finds an index at or before that image |
| `Lightbox.TitleOrDefault` | script.js:877 | `title \|\| 'Gallery Image'`: an empty title becomes `Gallery Image` and a non-empty title is kept |
| `Lightbox.LightboxState.constructor` | script.js:810-829 | the images are built from the gallery sources; the index is 0 |
| `Lightbox.LightboxState.OpenLightbox` | script.js:832-880 | index becomes `FindIndex` (possibly -1); logs `lightbox_opened` with the default title |
| `Lightbox.LightboxState.UpdateLightboxImage` | script.js:903-937 | returns the current image; logs `lightbox_navigation` with direction `next` and the index |
| `Lightbox.LightboxState.PrevLightboxImage` | script.js:893-896 | index becomes `(i - 1 + n) % n` and is in range afterwards, also from -1 |
| `Lightbox.LightboxState.NextLightboxImage` | script.js:898-901 | index becomes `(i + 1) % n` and is in range afterwards, also from -1 |
| `Swipe.StartsSwipe` | script.js:647-651 | a move starts a swipe exactly when it is more than 10 pixels horizontally and strictly more horizontal than vertical |
| `Swipe.ClassifySwipe` | script.js:665-678 | a recognised swipe always has a distance above 30 |
| `Swipe.SwipeApplied` | script.js:672-685 | no action changes nothing; a rightward swipe is a previous step with its two records and then `carousel_swipe` `right`; a leftward swipe the same with next and `left`; either step from an index of -1 or more lands in range |
| `Swipe.ClassifySwipeSpec` | script.js:665-687 | a swipe acts exactly when \|dx\| > 30 and \|dy\| < 100; positive dx means right (previous), otherwise left (next); the distance is \|dx\| |
| `Swipe.ClassifySwipeMirror` | script.js:671-678 | mirroring a gesture horizontally swaps right and left and keeps the distance |
| `Swipe.ClassifySwipeDirectionFromX` | script.js:671-678 | among recognised swipes, the action depends on the x coordinates only |
| `Swipe.TouchState.constructor` | script.js:631-635 | all coordinates 0, not swiping |
| `Swipe.TouchState.HandleTouchStart` | script.js:637-641 | records the start point and clears `isSwiping` |
| `Swipe.TouchState.HandleTouchMove` | script.js:643-655 | `isSwiping` becomes set once \|Δx\| > \|Δy\| and \|Δx\| > 10, and is never cleared here |
| `Swipe.TouchState.HandleTouchEnd` | script.js:657-663 | does nothing unless `isSwiping`; otherwise records the end point and applies the swipe |
| `Swipe.TouchState.HandleSwipe` | script.js:665-687 | no action: nothing changes; right: a previous step, then `carousel_swipe` `right` with distance; left: a next step, then `carousel_swipe` `left` |

## Left out

- DOM work is not modelled. This covers class toggling, style and text writes, element lookups, modals, the typewriter effect, the mobile menu, the navbar, footer buttons and the `IntersectionObserver` setup. Only the state and the log records of the handlers remain.
- The scroll debounce, the 30-second `time_update` interval, carousel autoplay (`startCarouselAutoPlay`, `pauseAutoPlay`, `stopAutoPlay`, `resumeAutoPlay`) and `progressWidth` are left out. They are timer scheduling and float steps.
- `trackScroll`, `trackClick`, section views, `scrollToSection`, video and menu tracking, `beforeunload` (the `finalAnalytics` key) and `getAnalyticsData` are left out. They only read the DOM or the browser and append records. `Event.Other` stands for their records, and `Stored.Foreign` for values that other writers put in storage.
- Storage holds structured values, not JSON text. `JSON.stringify` and `JSON.parse` are not modelled.
- The keyboard and button dispatch to these handlers is not modelled. This includes the `onclick` swap between `nextQuestion` and `finishQuiz`, which the model records as `finishMode`.
- `Math.random`, `Date.now`, `new Date()`, `toISOString` and the browser's user agent, screen and language are inputs. The constructor uses one clock reading for both the session id and the start time. The source reads the clock twice.
- Each handler uses a single timestamp for all the records it logs, while the source reads the clock once per record.
- Values are copies. The log's `quiz_completed` record and `getAnalytics().interactions` hold references to live objects in JavaScript, and the model does not capture that aliasing.
- Storage writes always succeed in the model. In the source, a failing `localStorage.setItem` (quota exceeded, storage disabled) throws out of `logInteraction` after the push, and nothing catches it.
- Timestamps are opaque strings, so the model states nothing about their chronological order.
- Swipe coordinates are integers. The browser's `screenX`/`screenY` may be fractional.
- The quiz's initial state combines the module-level variables (script.js:154-156) with the button state the DOMContentLoaded handler sets (script.js:1167-1175). The Next button's label and its `onclick` come from the page's markup, which is not part of this model; the constructor takes Next mode.
- The initial `showSlide(0)` call on DOMContentLoaded is not modelled as a separate step. It is one `ShowSlide` call.
- `Carousel.CarouselState.NextSlide`, `Carousel.CarouselState.PrevSlide`: these require at least one slide, and so do `Swipe.TouchState.HandleTouchEnd` and `Swipe.TouchState.HandleSwipe`, but only for a gesture that is a recognised swipe. With no slides JavaScript's `% 0` yields NaN, and the model has no NaN.
- `Lightbox.LightboxState.PrevLightboxImage`, `Lightbox.LightboxState.NextLightboxImage`: these require at least one gallery image, for the same NaN reason.
- `Lightbox.LightboxState.UpdateLightboxImage`: this requires an in-range index. An out-of-range index would make the JavaScript throw before it logs, and `Valid()` together with the wrap lemmas shows that prev and next never produce one.
