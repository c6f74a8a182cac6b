# TalkingPhoto AI — a Dafny model of the generation jobs and client state

TalkingPhoto AI turns a photo into a talking video. The server has two routes for
video generation on Replicate. `generate-video` creates a prediction and then polls
it, with at most 60 status reads. `video-status` reads a prediction once and turns
its status into a progress record. The client keeps a creation session store, a
gallery list and a subscription state with a free-tier limit of one video. A few
screens also contain small decisions: the loading overlay's hints, the onboarding
carousel, the paywall's outcome routing and the responsive layout measures.

This project models that logic as immutable datatypes and pure functions. The one
exception is the poll loop, which is a method with loop invariants. The method is
proved equal to a recursive reference definition. Everything outside the model
is passed in as a parameter:

- a status read is `poll(attempt)`: a snapshot, or the value the transport threw;
- job creation, purchase and restore results, the API token, a fresh gallery id
  and the clock are plain inputs;
- a parsed request body is `Parsed(fields)`; a body that fails to parse is
  `Unreadable(thrown)`.

Files (one module each): `wrappers.dfy` holds `Wrappers` (optional values), `Js`
(string truthiness, `a || b`) and `Http` (responses, caught values). The other files
are `replicate.dfy`, `video_status.dfy`, `generate_video.dfy`, `creation_store.dfy`,
`gallery_store.dfy`, `decimal.dfy`, `entitlement.dfy`, `subscription_context.dfy`,
`use_subscription.dfy`, `loading_overlay.dfy`, `onboarding.dfy`, `paywall.dfy` and
`responsive.dfy`.

Three facts of the code shape the model:

- A status read that throws ends the route with a 500; the poll loop does not
  retry it (`GenerateVideo.ReadErrorEndsRoute`).
- `generate-video` waits for the prediction on the server and answers with the
  video URL.
- The creation store has six statuses, including `generating-script`. A null
  error still sets the error status, and the complete status can be set with no
  video URL (`CreationStore.StatusNotTiedToFields`).

## Model

| member | source | states |
|---|---|---|
| VideoStatus.Progress | app/api/video-status+api.ts:51-72 | progress is one of 0, 10, 50, 100; it is 100 exactly for succeeded and 0 exactly for failed or canceled |
| VideoStatus.ProgressFollowsStage | app/api/video-status+api.ts:52-62 | progress strictly increases along starting, processing, succeeded |
| VideoStatus.Message | app/api/video-status+api.ts:64-71 | a failed status shows the provider error when it is non-empty, else 'Generation failed'; other statuses show a non-empty message that is not the failure fallback |
| VideoStatus.MessageOnlyFailedReadsError | app/api/video-status+api.ts:51-72 | a non-failed status's message does not depend on the provider error, and distinct non-failed statuses have distinct messages |
| VideoStatus.NormaliseOutput | app/api/video-status+api.ts:77-85 | a string gives itself; a list gives its first element, or nothing when empty; an object gives its `video` field when non-empty, else nothing |
| VideoStatus.Report | app/api/video-status+api.ts:47-94 | the record echoes the status with its progress and message; a video URL only for succeeded with a present output; the error field equals the provider error exactly for failed and is null otherwise |
| VideoStatus.Handle | app/api/video-status+api.ts:16-100 | unreadable body gives 500; missing id gives 400 with no read; missing token gives 500 with no read; otherwise exactly one read, whose throw becomes 500 and whose snapshot becomes the report |
| VideoStatus.IdCheckedBeforeToken | app/api/video-status+api.ts:20-33 | a missing id yields the same 400 whatever the token or provider answer |
| VideoStatus.NoReadWithoutToken | app/api/video-status+api.ts:27-42 | without a token no read is issued, so the response does not depend on the provider |
| VideoStatus.ErrorOnlyWhenFailed | app/api/video-status+api.ts:68-93 | an error field implies failed; canceled reports no error and 'Generation canceled' |
| GenerateVideo.Settle | app/api/generate-video+api.ts:31-37 | a succeeded snapshot completes with that prediction; failed or canceled gives the provider error or 'Prediction failed'; a throwing read stays a throw |
| GenerateVideo.PollFrom | app/api/generate-video+api.ts:12-45 | reference loop: reads never exceed 60; a timeout means all 60 snapshots were pending; otherwise every earlier snapshot was pending and the last read decides |
| GenerateVideo.WaitForPrediction | app/api/generate-video+api.ts:12-45 | the loop issues 1 to 60 reads and stops at the first terminal or throwing read; it times out only after 60 pending reads; it agrees with the reference loop |
| GenerateVideo.AsThrown | app/api/generate-video+api.ts:36-44 | a failed outcome throws its message, a timeout throws 'Prediction timed out', a read error is rethrown unchanged |
| GenerateVideo.ResultUrl | app/api/generate-video+api.ts:94-96 | a list output gives its first element, or nothing when empty; a string output gives itself; no output gives nothing |
| GenerateVideo.Post | app/api/generate-video+api.ts:47-112 | the missing-URL 400 comes before the token 500, and neither creates a job; at most one job and 60 reads; every thrown error becomes a 500 with its message or 'Failed to generate video'; an unusable URL gives 'No video URL in response'; a completed poll with a usable URL answers 200 with exactly that URL, and every 200 is of that kind |
| GenerateVideo.FirstSettledDecides | app/api/generate-video+api.ts:19-37 | if snapshot k is the first non-pending one, the loop ends after k+1 reads with that snapshot's outcome |
| GenerateVideo.TimedOutIffAllPending | app/api/generate-video+api.ts:16-44 | the loop times out exactly when all 60 snapshots are pending |
| GenerateVideo.SucceededSnapshotBecomes200 | app/api/generate-video+api.ts:31-105 | a first succeeded snapshot with a non-empty video URL makes the route answer 200 with that URL, after k+1 reads |
| GenerateVideo.FailedSnapshotBecomes500 | app/api/generate-video+api.ts:35-110 | a first failed or canceled snapshot makes the route answer 500 with the provider error or 'Prediction failed', after k+1 reads |
| GenerateVideo.ReadErrorEndsRoute | app/api/generate-video+api.ts:20-110 | a status read that throws ends polling at once and becomes the 500 message |
| CreationStore.Initial | stores/creationStore.ts:4-13 | idle, empty script, no image, audio, video or error, default voice |
| CreationStore.SetImage | stores/creationStore.ts:18-19 | sets both image fields, clears the error, keeps every other field including the status |
| CreationStore.SetScript | stores/creationStore.ts:21 | sets the script and nothing else |
| CreationStore.SetVoice | stores/creationStore.ts:23 | sets the voice id and nothing else |
| CreationStore.SetAudioUrl | stores/creationStore.ts:25 | sets the audio URL and nothing else |
| CreationStore.SetVideoUrl | stores/creationStore.ts:27 | sets the video URL and nothing else |
| CreationStore.SetStatus | stores/creationStore.ts:29 | sets the status, from any status, and nothing else |
| CreationStore.SetError | stores/creationStore.ts:31 | sets the error, even to null, forces the error status, and changes nothing else |
| CreationStore.Reset | stores/creationStore.ts:33 | every field returns to its initial value |
| CreationStore.ResetIdempotent | stores/creationStore.ts:33 | the result of reset does not depend on the state, and resetting twice equals resetting once |
| CreationStore.DefaultVoiceAvailable | stores/creationStore.ts:37-44 | the default voice is among the six offered voices, whose ids are pairwise distinct |
| CreationStore.StatusNotTiedToFields | stores/creationStore.ts:29-31 | a null error still yields the error status; complete can be set with no video URL |
| GalleryStore.AddVideo | stores/galleryStore.ts:14-22 | the list grows by one: a new entry in front, with the caller's fields, the fresh id and the time, followed by the old list |
| GalleryStore.RemoveVideo | stores/galleryStore.ts:32-34 | no entry with the id remains; every other entry stays, in the same relative order; an absent id leaves the list unchanged |
| GalleryStore.RemoveKeepsOthers | stores/galleryStore.ts:32-34 | every entry with another id occurs in the result exactly as often as before |
| GalleryStore.ClearGallery | stores/galleryStore.ts:44-45 | the list becomes empty |
| GalleryStore.LoadGallery | stores/galleryStore.ts:53-59 | readable stored data replaces the list; absent or unparsable data leaves it unchanged |
| GalleryStore.RemoveUndoesAdd | stores/galleryStore.ts:14-34 | removing the id just added with a fresh id restores the original list |
| GalleryStore.RemoveIdempotent | stores/galleryStore.ts:32-34 | removing the same id twice equals removing it once |
| Entitlement.RemainingFreeVideos | contexts/SubscriptionContext.tsx:127 | never negative, at least 1 minus the count, equal to 0 or to 1 minus the count, and at most 1 for a non-negative count |
| Entitlement.CanCreateVideo | contexts/SubscriptionContext.tsx:128 | premium always permits creation; otherwise creation is allowed exactly when free videos remain |
| Entitlement.FreeTierExhaustedAfterOne | contexts/SubscriptionContext.tsx:13-128 | a non-premium user with one or more videos cannot create another and has none left |
| Entitlement.FirstOfType | hooks/useSubscription.ts:107-112 | the index found is the first package of that type; none found means no package has it |
| Entitlement.FindPackage | hooks/useSubscription.ts:107-112 | nothing without an offering; otherwise the first available package of the type, or nothing when none has it |
| SubscriptionContext.Initial | contexts/SubscriptionContext.tsx:44-48 | not premium, count 0, paywall hidden |
| SubscriptionContext.Value | contexts/SubscriptionContext.tsx:126-144 | remaining free videos lie in [0,1]; creation is allowed iff premium or free videos remain |
| SubscriptionContext.ApplyStoreResult | contexts/SubscriptionContext.tsx:94-110 | purchase and restore pass the result back; success sets premium and hides the paywall; failure changes nothing |
| SubscriptionContext.IncrementVideoCount | contexts/SubscriptionContext.tsx:112-116 | the count rises by exactly one; the persisted text is a digit string without a leading zero that reads back as the new count |
| SubscriptionContext.ShowPaywall | contexts/SubscriptionContext.tsx:118-120 | the paywall becomes visible and nothing else changes |
| SubscriptionContext.HidePaywall | contexts/SubscriptionContext.tsx:122-124 | the paywall becomes hidden and nothing else changes |
| SubscriptionContext.CreationGate | contexts/SubscriptionContext.tsx:112-128 | a non-premium user can create exactly while the count is 0, and never after an increment |
| UseSubscription.Initial | hooks/useSubscription.ts:38-41 | not premium, count 0, no offering |
| UseSubscription.Value | hooks/useSubscription.ts:103-112 | the same free-tier values as the context; the weekly and monthly packages are the first of their types |
| UseSubscription.ApplyStoreResult | hooks/useSubscription.ts:80-94 | purchase and restore answer the result's success and set premium exactly when it is true |
| UseSubscription.IncrementVideoCount | hooks/useSubscription.ts:96-100 | the count rises by exactly one, nothing else changes, and the persisted text is a digit string without a leading zero that reads back as the new count |
| UseSubscription.PremiumAfterPurchase | hooks/useSubscription.ts:80-104 | after a successful purchase creation stays allowed whatever the count |
| Decimal.NatToString | components/Paywall.tsx:122 | a non-empty digit string with no leading zero |
| Decimal.ParseRendered | contexts/SubscriptionContext.tsx:72-115 | reading back a rendered count gives the count |
| LoadingOverlay.Render | components/LoadingOverlay.tsx:9-39 | the progress bar is drawn exactly when a progress is given and is above 0, filled to that percentage and labelled with it rounded half up; the message defaults to 'Processing...'; without a bar the hint is the few-minutes one |
| LoadingOverlay.HintFor | components/LoadingOverlay.tsx:14-39 | 'GPU is warming up' exactly for shown progress below 50; 'Almost there' exactly for shown progress from 50 to below 100; otherwise the few-minutes hint |
| LoadingOverlay.MessageShown | components/LoadingOverlay.tsx:11 | the given message, or 'Processing...' when none is given |
| LoadingOverlay.HintPerStatus | components/LoadingOverlay.tsx:35-39 | if the overlay were given the status route's progress (the creation screen passes none): starting warms up, processing is almost there, terminal statuses show the few-minutes hint |
| Onboarding.HandleNext | app/onboarding.tsx:76-82 | below the last slide it scrolls to the next index; on or past the last it completes onboarding |
| Onboarding.SkipVisible | app/onboarding.tsx:97-103 | on any slide, Skip is offered exactly where Next scrolls on; where it is hidden, the button reads 'Get Started' and completes onboarding |
| Onboarding.IsLastSlide | app/onboarding.tsx:97 | holds exactly at index 3, the last of the four slides |
| Onboarding.ButtonLabel | app/onboarding.tsx:149 | 'Get Started' exactly on the last slide, 'Next' otherwise |
| Onboarding.OnViewableItemsChanged | app/onboarding.tsx:62-63 | the index follows the first viewable item only when the list is non-empty and that index is known |
| Onboarding.FourPressesFinish | app/onboarding.tsx:20-81 | there are four slides; three presses from the first reach the last, and the fourth completes |
| Paywall.HandlePurchase | components/Paywall.tsx:45-68 | no package: an alert and no purchase; success: a success alert and the paywall closes; cancelled or errorless failure: no alert, stays open; other failure: 'Purchase Failed' with the error |
| Paywall.HandleRestore | components/Paywall.tsx:71-87 | success closes with 'Restored!'; any failure shows 'No Subscription Found' and stays open |
| Paywall.Subtitle | components/Paywall.tsx:121-123 | with N > 0 it reads 'You have ', the digits of N, ' free video', then 's left' when N ≠ 1 and ' left' when N = 1; otherwise 'You've used all your free videos' |
| Paywall.SubtitleForOne | components/Paywall.tsx:121-123 | one left reads 'You have 1 free video left' |
| Paywall.SubscribeTarget | components/Paywall.tsx:215-216 | weekly buys the weekly package, monthly the monthly one |
| Paywall.PriceLabel | components/Paywall.tsx:165 | the package's price string when present and non-empty, else the fallback |
| Paywall.DefaultBuysWeekly | components/Paywall.tsx:36 | the plan initially selected is weekly, so subscribing before any choice buys the weekly package |
| Paywall.NoOfferingFallbacks | components/Paywall.tsx:38-201 | without an offering the prices read '$4.99' and '$9.99' and subscribing alerts without purchasing |
| Responsive.Classify | hooks/useResponsive.ts:88-91 | exactly one of small, medium, large and tablet holds; small is below 390, medium from 390 below 428, large from 428 below 768, tablet from 768 |
| Responsive.ContentWidth | hooks/useResponsive.ts:96-98 | at most 500 and at most the width minus 48, and equal to one of the two |
| Responsive.CardWidth | hooks/useResponsive.ts:107-108 | two cards plus the 16-point gap fill the content width |
| Responsive.LayoutFor | hooks/useResponsive.ts:94-122 | padding at least 24 and centring the content; image size equals content width; font scale equal to width/390 clamped to [0.9, 1.1]: exactly 0.9 at or below 0.9, exactly 1.1 at or above 1.1, and the ratio itself between |
| Responsive.GetResponsiveValues | hooks/useResponsive.ts:184-193 | content width at most 500, image size equal to it, two cards plus the gap fill it |
| Responsive.StaticAgreesWithHook | hooks/useResponsive.ts:184-193 | content width, image size and card width agree with the hook's for every width |

## Left out

- Network calls to Replicate, ElevenLabs and Gemini. The prediction id and token
  only address a request, so their answers are inputs, indexed by attempt for the poll loop.
- GenerateVideo.Post: the created prediction's id is not tied to the status reads,
  because the provider is given as answers indexed by attempt.
- The 5-second sleep between status reads. Only the number of reads is modelled.
- Console logging and analytics events, which are side effects only.
- Writes to device storage. The gallery store catches and logs a failed write. The
  context's and the hook's `incrementVideoCount` do not catch one: the promise
  returned to the caller rejects after the count has already gone up. That
  rejection is not modelled. The creation store writes nothing to storage.
- `parseInt` yielding NaN for a corrupt stored count, because counts are `nat` here.
- The random gallery id and `Date.now()`. They are parameters of `AddVideo`.
- The purchases library wrapper. Purchase and restore results are an input record
  `{success, error}`.
- Start-up loading of premium status, offerings and the stored count, and
  `refreshStatus`. These only copy external answers into state.
- Loading flags (`isLoading`), which only disable buttons while an answer is awaited.
- React closure capture: `incrementVideoCount` reads the `videoCount` captured at
  render time. Each action here is one sequential transition from the current state.
- `handleSkip`, which always completes onboarding and so has no decision in it.
- useResponsive's rounded measures (`buttonHeight`, `iconContainerSize`, glow sizes,
  `wp`, `hp`, `scale`). They depend on `Math.round` of non-integer products.
- The script and voice routes and `services/api.ts`, which only check fields and
  forward them.
- The client screen that sequences voice and video generation. The type definition
  of gallery entries is not part of this model either: its fields are taken from
  where the gallery store and screen use them.
- Rendering, styles, theme constants and presentation-only components. The overlay's
  `visible` flag only opens the modal and is not part of `LoadingOverlay.Render`.
- Floating point. Window widths, the font scale and the overlay's progress are exact
  reals rather than IEEE doubles, so a comparison at a boundary, such as width/390
  against 0.9, can come out differently where the double is one unit in the last place off.
