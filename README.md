# Speech-confidence app for children: session store, lessons and pages

This project models the logic of a small single-page app. The app helps children
who stutter build speaking confidence, and their parents follow along. The model
has three parts.

- **The store** (`AppContext`). It holds two login flags (parent and kid), an
  optional current parent, an optional current kid, and the roster of kid
  profiles. It offers `addKid`, `updateKid`, `loginAsKid` and `logout`, the raw
  setters, and the effect that fills in the sample parent. The store is
  `AppContext.Store`, a class with those five fields. Every method is proved
  equal to a pure transition on the `Session` value that `State()` reads off the
  fields. A `Partial<Kid>` is a `KidUpdate`, a record of `Option` fields, and
  the object spread is `Merge`.
- **The three lessons** (`LessonVoices`, `LessonFamousPeople`,
  `LessonBraveSpeaking`). Each page is a class whose fields are the React state
  of that page. Its handlers are methods that keep an index or timer invariant.
  Each lesson's reward is a pure function from the current kid to a `KidUpdate`.
  All three are applied through the one step `RewardCurrentKid`: "if there is a
  current kid, `updateKid` it".
- **The pages that read or drive the store**: creating a kid profile, parent
  sign-up and log-in, the parent dashboard, and the kid's badges, progress, home
  screen and profile. Their derivations are functions: goal toggling, the new
  kid record, the e-mail name, the aggregates, badge counting, kid lookup, the
  labels and lock gating. Their handlers are methods on the store.

The demo auto-logins repeat the same code on several pages. They are written
once, in `DemoLogin`. The kid pages pick the kid they show from the state their
render saw; `DemoLogin.DisplayedKidStable` shows this is the kid the new state
would give.

Behaviour the proofs make explicit:

- The voices lesson is the only one that is not idempotent. Answering its quiz
  again adds a lesson and appends a second copy of its badge
  (`LessonVoices.VoicesRepeated`). The badge page's count ignores the copy, but
  the "Badges earned" figure on the progress page counts it
  (`KidProgress.BadgeFigureCountsCopies`).
- `addKid` never checks for a duplicate id, and `loginAsKid` never checks that
  the kid is on the roster. The kid-session invariant (the kid flag is set
  exactly when there is a current kid, and that kid is on the roster) holds only
  because the pages log in roster entries (`AppContext.KidSessionPreserved`).
- Keeping the current kid equal to its roster entry needs no unique ids. Lookup
  is first-match, and an update that leaves the id alone keeps it first
  (`AppContext.UpdateKidKeepsMirror`).
- The progress page's badge tab has fixed flags ("2 of 6") and ignores the kid.
  The lesson statuses on the progress page and the home screen are also fixed.
- The recording timer in the brave-speaking lesson keeps ticking after "stop"
  until it reaches five seconds. `Tick` is therefore allowed in any state.

In the store's source the sample avatars are mis-decoded UTF-8 bytes: each is
four characters (U+F8FF and three Latin-1 characters) rather than one emoji. The
model keeps them as written, so neither is among the profile page's eight
avatars and its picker highlights nothing for the sample kids
(`KidProfile.AvatarChoices`).

## Model

| member | source | states |
|---|---|---|
| AppContext.Merge | src/contexts/AppContext.tsx:91 | The spread: each field present in the partial record replaces the kid's value, each absent field keeps it, and `{}` changes nothing. |
| AppContext.MergeLaws | src/contexts/AppContext.tsx:91 | Spreading `{}` changes nothing. Spreading the same partial record twice equals spreading it once. Two spreads in a row equal one spread of the combined record. |
| AppContext.UpdateRoster | src/contexts/AppContext.tsx:90-92 | The roster keeps its length. An entry with the given id becomes the old entry with exactly the present fields replaced. Every other entry is unchanged. |
| AppContext.FindById | src/pages/KidProgress.tsx:53 | `find` returns nothing exactly when no entry has the id. Otherwise it returns an entry with that id, at an index where no earlier entry has it. |
| AppContext.MergeCurrent | src/contexts/AppContext.tsx:93-95 | The current kid stays absent or present. It gets the merge exactly when it has the updated id; otherwise it is unchanged. |
| AppContext.AddKidTo | src/contexts/AppContext.tsx:85-87 | The roster grows by one with the new kid last and the old entries first; every other field stays. |
| AppContext.UpdateKidIn | src/contexts/AppContext.tsx:89-96 | Every roster entry with the id gets the merge and every other entry stays; the current kid is merged only when it has the id; the flags and the parent stay. |
| AppContext.LoginAsKidIn | src/contexts/AppContext.tsx:98-101 | Sets the current kid and the kid flag; the roster, the parent flag and the parent stay. |
| AppContext.LoggedOut | src/contexts/AppContext.tsx:103-108 | Both flags false, no current parent or kid, the roster kept. |
| AppContext.SampleParentStep | src/contexts/AppContext.tsx:111-115 | Only the parent can change, and only when the parent flag is set without a parent: then it becomes the sample parent. Afterwards the flag implies a parent. |
| AppContext.InitialSessionFacts | src/contexts/AppContext.tsx:43-83 | The provider starts with both flags false and no current parent or kid. The roster is the two sample kids, ids "1" and "2", which are unique. Both session invariants hold. |
| AppContext.AddKidAppends | src/contexts/AppContext.tsx:85-87 | `addKid` grows the roster by one and puts the kid last; the earlier entries stay as they were. It does not check ids: the result has unique ids exactly when the old roster did and lacked the new id. |
| AppContext.UpdateRosterUnknownId | src/contexts/AppContext.tsx:89-92 | An id that is not on the roster leaves the roster unchanged. |
| AppContext.UpdateKidUnknownId | src/contexts/AppContext.tsx:89-96 | If the current kid is a roster entry, an update for an id not on the roster leaves the whole session unchanged, the current kid included. |
| AppContext.FindAfterUpdate | src/contexts/AppContext.tsx:89-92 | After an update that keeps ids, looking up any id finds the same entry as before, merged if it has the updated id. |
| AppContext.UpdateKidKeepsMirror | src/contexts/AppContext.tsx:89-96 | A current kid that equals its roster entry before an update still equals it after the update. |
| AppContext.UpdateKidCurrent | src/contexts/AppContext.tsx:93-95 | `updateKid` changes the current kid only when it exists and has the id, and then by the same merge as the roster. The flags and the parent stay. |
| AppContext.KidSessionPreserved | src/contexts/AppContext.tsx:85-115 | `addKid`, `updateKid`, `logout` and the sample-parent effect keep the kid-session invariant. `loginAsKid` keeps it when the kid is on the roster. |
| AppContext.LogoutIdempotent | src/contexts/AppContext.tsx:103-108 | Logging out clears both flags and both identities and keeps the roster. Logging out twice equals logging out once. |
| AppContext.SampleParentStepFacts | src/contexts/AppContext.tsx:111-115 | The effect sets the sample parent exactly when the parent flag is set and no parent is present; otherwise it changes nothing. Afterwards the flag implies a parent, and a second run changes nothing. |
| AppContext.SampleUpdateScenario | src/contexts/AppContext.tsx:89-92 | `updateKid("2", {points: 150})` on the sample roster changes only Jake's points. |
| AppContext.RewardCurrentKid | src/contexts/AppContext.tsx:89-96 | Without a current kid nothing changes. With one, the current kid becomes its merge with the reward and the roster is updated under the current kid's id; the flags, the parent and the roster length stay. |
| AppContext.RewardCurrentKidFacts | src/contexts/AppContext.tsx:89-96 | The lessons' "reward the current kid if any" step: with no current kid it changes nothing. Otherwise the current kid becomes the merged record, the invariant holds, and the flags, the parent and the roster length stay. |
| AppContext.Store.constructor | src/contexts/AppContext.tsx:78-83 | The store starts in the initial session. |
| AppContext.Store.AddKid | src/contexts/AppContext.tsx:85-87 | The new state is the old one with the kid appended to the roster. |
| AppContext.Store.UpdateKid | src/contexts/AppContext.tsx:89-96 | The new state is the roster merge, mirrored into the current kid when the ids match. |
| AppContext.Store.LoginAsKid | src/contexts/AppContext.tsx:98-101 | Sets the current kid and the kid flag; nothing else changes. |
| AppContext.Store.Logout | src/contexts/AppContext.tsx:103-108 | Clears both flags and both identities; the roster stays. |
| AppContext.Store.SampleParentEffect | src/contexts/AppContext.tsx:111-115 | The new state is the sample-parent step of the old one. |
| AppContext.Store.SetIsParentLoggedIn | src/contexts/AppContext.tsx:79 | Sets the parent flag only. |
| AppContext.Store.SetIsKidLoggedIn | src/contexts/AppContext.tsx:80 | Sets the kid flag only. |
| AppContext.Store.SetCurrentParent | src/contexts/AppContext.tsx:81 | Sets the current parent only. |
| AppContext.Store.SetCurrentKid | src/contexts/AppContext.tsx:82 | Sets the current kid only. |
| AppContext.Store.SetKids | src/contexts/AppContext.tsx:83 | Sets the roster only. |
| Text.BeforeFirst | src/pages/ParentSignup.tsx:52 | `split(c)[0]` is a prefix of the text with no `c` in it, and it is followed by a `c` when shorter than the text. |
| Text.Contains | src/pages/ParentDashboard.tsx:25 | `includes` is true exactly when the substring occurs at some index. |
| Text.NatToString | src/pages/KidProgress.tsx:228 | The decimal rendering of a number is non-empty, all digits, denotes that number, and has no leading zero: it starts with "0" only for zero, which is the single digit "0". |
| SeqUtil.RemoveAll | src/pages/CreateKidProfile.tsx:44 | Filtering out a value removes every copy of it, keeps every other member, and changes nothing when the value is absent. Order is fixed by the two lemmas below. |
| SeqUtil.RemoveAllSingle | src/pages/CreateKidProfile.tsx:44 | A one-element list loses its element exactly when it is the filtered value. |
| SeqUtil.RemoveAllConcat | src/pages/CreateKidProfile.tsx:44 | Filtering a concatenation is the concatenation of the filtered parts, so the kept elements stay in their order. |
| SeqUtil.AppendIfAbsent | src/pages/lessons/LessonFamousPeople.tsx:67-69 | "Append unless it is already included": a list that holds the value is returned unchanged, one that lacks it gets it appended last. |
| DemoLogin.ParentAutoLogin | src/pages/ParentDashboard.tsx:18-22 | Afterwards the parent flag is set. A logged-in session is untouched; a logged-out one gets the demo parent. The kid side and the roster never change. |
| DemoLogin.KidAutoLogin | src/pages/KidBadges.tsx:20-23 | With a non-empty roster the kid flag is set afterwards; with no kid logged in the first kid becomes current. A logged-in session or an empty roster is untouched. The roster and the parent side never change. |
| DemoLogin.DisplayedKid | src/pages/KidBadges.tsx:25-27 | No kid is shown exactly when there is no current kid and the roster is empty. The current kid wins, then the first roster entry; in a consistent session the kid shown is on the roster. |
| DemoLogin.ParentAutoLoginFacts | src/pages/ParentDashboard.tsx:18-22 | A logged-out parent session gets the flag and the demo parent, the same value as the store's sample parent. A logged-in one is untouched. The kid side never changes, and a second run changes nothing. |
| DemoLogin.KidAutoLoginFacts | src/pages/KidBadges.tsx:20-33 | With no kid logged in and a non-empty roster, the first kid is logged in; otherwise nothing changes. The invariant holds afterwards. The page shows nothing exactly when the roster is empty, and otherwise shows the current kid, a roster entry. |
| DemoLogin.DisplayedKidStable | src/pages/KidBadges.tsx:20-25 | In a consistent session (kid flag set exactly when there is a current kid, who is on the roster), the kid picked from the render's state (`currentKid || kids[0]`) is the one the state after the auto-login gives. |
| DemoLogin.AutoLoginParent | src/pages/ParentDashboard.tsx:19-22 | On the store, the parent auto-login step. |
| DemoLogin.AutoLoginKid | src/pages/KidBadges.tsx:21-23 | On the store, the kid auto-login step. |
| LessonVoices.VoicesUpdate | src/pages/lessons/LessonVoices.tsx:76-80 | The partial record names only points, lessons and badges, and keeps the id. Merged, it adds 50 points and one lesson and appends the badge. |
| LessonVoices.VoicesRewardEffect | src/pages/lessons/LessonVoices.tsx:75-81 | The quiz reward adds 50 points and one lesson with no `max`, appends "voice-explorer" with no check, and changes no other field. |
| LessonVoices.VoicesRepeated | src/pages/lessons/LessonVoices.tsx:75-81 | Answering twice adds two lessons, 100 points and two copies of the badge. |
| LessonVoices.VoicesFirstCompletion | src/pages/lessons/LessonVoices.tsx:76-80 | From no lessons, one answer gives one lesson, 50 more points and the badge. |
| LessonVoices.VoicesPage.constructor | src/pages/lessons/LessonVoices.tsx:48-51 | The lesson opens on slide 0 with no quiz and no answer. |
| LessonVoices.VoicesPage.HandleNext | src/pages/lessons/LessonVoices.tsx:56-62 | Below the last slide (5) the index moves up by one. On the last slide only the quiz opens. The index stays in [0, 5]. |
| LessonVoices.VoicesPage.HandlePrev | src/pages/lessons/LessonVoices.tsx:64-68 | The index moves down only above 0, so it never goes negative. |
| LessonVoices.VoicesPage.HandleQuizAnswer | src/pages/lessons/LessonVoices.tsx:70-81 | Any answer is recorded and completes the quiz. The store gets the voices reward for the current kid, or is unchanged when there is none. |
| LessonVoices.VoicesPage.QuizBack | src/pages/lessons/LessonVoices.tsx:121 | Closes the quiz; the slide index and the answer stay. |
| LessonVoices.QuizRoundTrip | src/pages/lessons/LessonVoices.tsx:56-62 | From the last slide, opening the quiz and backing out returns to the last slide with the quiz closed. |
| LessonFamousPeople.FamousUpdate | src/pages/lessons/LessonFamousPeople.tsx:64-70 | The partial record names only points, lessons and badges, and keeps the id. Merged, it adds 50 points, gives at least two lessons and never fewer, and holds the badge after the old badges. |
| LessonFamousPeople.FamousRewardEffect | src/pages/lessons/LessonFamousPeople.tsx:63-70 | Finishing the deck adds 50 points and sets lessons to `max(old, 2)`. It appends "inspiration-seeker" only when absent, keeping the old badges in order. No other field changes. |
| LessonFamousPeople.FamousRepeated | src/pages/lessons/LessonFamousPeople.tsx:64-69 | Finishing again only adds points; lessons and badges are as after the first time. |
| LessonFamousPeople.FamousKeepsBadgesDistinct | src/pages/lessons/LessonFamousPeople.tsx:67-69 | A badge list without duplicates stays without duplicates. |
| LessonFamousPeople.FamousPage.constructor | src/pages/lessons/LessonFamousPeople.tsx:51-53 | The deck opens on card 0 with no hearts and no completion screen. |
| LessonFamousPeople.FamousPage.HandleNext | src/pages/lessons/LessonFamousPeople.tsx:58-74 | Below card 4 the index moves up and the store is untouched. On the last card the index stays, the completion screen shows, and the current kid, if any, gets the reward. |
| LessonFamousPeople.FamousPage.HandlePrev | src/pages/lessons/LessonFamousPeople.tsx:76-80 | The index moves down only above 0 and stays in [0, 4]. |
| LessonFamousPeople.FamousPage.HandleInspire | src/pages/lessons/LessonFamousPeople.tsx:82-90 | The current card is added to the hearts only when absent, so the hearts never repeat and never exceed five. |
| LessonFamousPeople.InspiredBound | src/pages/lessons/LessonFamousPeople.tsx:82-84 | A duplicate-free list of card indices in [0, 4] has at most five entries. |
| LessonBraveSpeaking.TickTime | src/pages/lessons/LessonBraveSpeaking.tsx:33-41 | One tick keeps a counter in [0, 5] inside [0, 5]. It leaves the counter unchanged exactly at 5 or more, and below 5 adds one. |
| LessonBraveSpeaking.TicksStopAtMax | src/pages/lessons/LessonBraveSpeaking.tsx:32-42 | Starting from 0 to 5 seconds, `n` ticks count up one per tick and stop at 5, so the counter never passes 5. |
| LessonBraveSpeaking.BraveUpdate | src/pages/lessons/LessonBraveSpeaking.tsx:59-65 | The partial record names only points, lessons and badges, and keeps the id. Merged, it adds 100 points, gives at least three lessons and never fewer, and holds the badge after the old badges. |
| LessonBraveSpeaking.BraveRewardEffect | src/pages/lessons/LessonBraveSpeaking.tsx:58-66 | Submitting adds 100 points and sets lessons to `max(old, 3)`. It appends "brave-speaker" only when absent. No other field changes. |
| LessonBraveSpeaking.BraveRepeated | src/pages/lessons/LessonBraveSpeaking.tsx:61-64 | Submitting again only adds points; badges and lessons stay as after the first time. |
| LessonBraveSpeaking.BraveKeepsBadgesDistinct | src/pages/lessons/LessonBraveSpeaking.tsx:62-64 | A badge list without duplicates stays without duplicates. |
| LessonBraveSpeaking.BravePage.constructor | src/pages/lessons/LessonBraveSpeaking.tsx:21-24 | The recorder opens idle, empty, at 0 seconds. |
| LessonBraveSpeaking.BravePage.StartRecording | src/pages/lessons/LessonBraveSpeaking.tsx:28-30 | Sets recording and resets the counter to 0. |
| LessonBraveSpeaking.BravePage.Tick | src/pages/lessons/LessonBraveSpeaking.tsx:33-41 | At 5 seconds or more the counter stays, recording stops and the recording is kept. Below 5 the counter goes up by one. |
| LessonBraveSpeaking.BravePage.StopRecording | src/pages/lessons/LessonBraveSpeaking.tsx:45-48 | Recording stops and a recording exists; the counter stays. |
| LessonBraveSpeaking.BravePage.DeleteRecording | src/pages/lessons/LessonBraveSpeaking.tsx:50-53 | The recording is gone and the counter is 0. |
| LessonBraveSpeaking.BravePage.SubmitRecording | src/pages/lessons/LessonBraveSpeaking.tsx:55-74 | The current kid, if any, gets the reward; with no current kid the store is unchanged. The completion screen shows either way. |
| LessonBraveSpeaking.BravePage.DoAnother | src/pages/lessons/LessonBraveSpeaking.tsx:96-100 | Resets the completion screen, the recording and the counter to false, false and 0. |
| CreateKidProfile.ToggleGoal | src/pages/CreateKidProfile.tsx:41-47 | A selected goal is filtered out, every copy of it, the rest kept in order. An unselected goal is appended last. No other goal's membership changes. |
| CreateKidProfile.ToggleOffKeepsOrder | src/pages/CreateKidProfile.tsx:42-45 | Deselecting a goal chosen once drops just that entry; the goals before and after it keep their order. |
| CreateKidProfile.ToggleTwiceRestores | src/pages/CreateKidProfile.tsx:42-46 | Toggling an unselected goal twice restores the selection exactly. |
| CreateKidProfile.ToggleKeepsDistinct | src/pages/CreateKidProfile.tsx:42-46 | A duplicate-free selection stays duplicate-free. |
| CreateKidProfile.LabelOf | src/pages/CreateKidProfile.tsx:77 | An id that no catalogue goal has gets the label "". |
| CreateKidProfile.LabelOfFirst | src/pages/CreateKidProfile.tsx:77 | An id the catalogue has gets the label of the first goal carrying it. |
| CreateKidProfile.GoalLabels | src/pages/CreateKidProfile.tsx:77 | One label per selected id, in selection order, each the catalogue lookup of that id. |
| CreateKidProfile.CatalogueLabels | src/pages/CreateKidProfile.tsx:23-28 | Each catalogue id maps to its own label, and an unknown id maps to "". |
| CreateKidProfile.NewKid | src/pages/CreateKidProfile.tsx:66-78 | The new record carries the given id, name, age and avatar, 0 points and lessons, 10 lessons in total, no streak, no badges, "Just now", and one catalogue label per selected goal in order. |
| CreateKidProfile.NewKidStartsFresh | src/pages/CreateKidProfile.tsx:66-78 | A new kid has 0 points, 0 lessons, 10 lessons in total, no streak, no badges, "Just now", and one goal label per selected goal. |
| CreateKidProfile.CreateKidPage.constructor | src/pages/CreateKidProfile.tsx:35-39 | The form opens empty and not loading. |
| CreateKidProfile.CreateKidPage.SetName | src/pages/CreateKidProfile.tsx:35 | Sets the name only. |
| CreateKidProfile.CreateKidPage.SelectAvatar | src/pages/CreateKidProfile.tsx:37 | Sets the avatar only. |
| CreateKidProfile.CreateKidPage.HandleGoalToggle | src/pages/CreateKidProfile.tsx:41-47 | The selection becomes its toggle. |
| CreateKidProfile.CreateKidPage.HandleSubmit | src/pages/CreateKidProfile.tsx:49-89 | With no avatar nothing is created and the store is unchanged. With one, exactly the new kid is appended through `addKid`, and loading ends false. |
| ParentSignup.Validate | src/pages/ParentSignup.tsx:27-43 | A password mismatch is reported first. Missing terms are reported only when the passwords match. Sign-up succeeds exactly when both checks pass. |
| ParentSignup.EmailName | src/pages/ParentSignup.tsx:52 | The name is a prefix of the address with no "@", followed in the address by an "@" when it is shorter. |
| ParentSignup.EmailNameFacts | src/pages/ParentSignup.tsx:52 | The derived name has no "@" and is a prefix of the address. It ends at the first "@", or is the whole address when there is none. |
| ParentSignup.EmailNameExample | src/pages/ParentSignup.tsx:52 | "sarah@example.com" gives "sarah". |
| ParentSignup.SignupSession | src/pages/ParentSignup.tsx:50-55 | Sets the flag and parent id "1" with the derived name and the address; the roster and the kid session stay. |
| ParentSignup.SignupSessionFacts | src/pages/ParentSignup.tsx:50-55 | Success records parent id "1" with the derived name and the address, and sets the flag. The roster and the kid session stay. |
| ParentSignup.HandleSubmit | src/pages/ParentSignup.tsx:24-64 | The outcome is the validation result. A refused submit leaves the store unchanged; success gives the sign-up session. |
| ParentLogin.LoginSession | src/pages/ParentLogin.tsx:30-35 | Sets the flag and the parent "Sarah Johnson" with the entered address; the roster and the kid session stay. |
| ParentLogin.LoginSessionFacts | src/pages/ParentLogin.tsx:30-35 | Log-in records "Sarah Johnson" with the entered address and sets the flag. The roster and the kid session stay. |
| ParentLogin.HandleSubmit | src/pages/ParentLogin.tsx:23-44 | Any address and password give the log-in session; the password and remember-me play no part. |
| ParentDashboard.TotalPoints | src/pages/ParentDashboard.tsx:24 | The empty roster totals 0, a one-kid roster totals that kid's points, and a roster whose points are all non-negative has a non-negative total. |
| ParentDashboard.TotalPointsAppend | src/pages/ParentDashboard.tsx:24 | Adding a kid raises the points total by that kid's points. |
| ParentDashboard.TotalPointsUpdate | src/pages/ParentDashboard.tsx:24 | Updating the one entry with an id changes the total by that entry's change in points. |
| ParentDashboard.LessonRaisesTotal | src/pages/ParentDashboard.tsx:24 | With unique ids and the current kid on the roster, the voices, famous-people and brave-speaking rewards raise the total by 50, 50 and 100. |
| ParentDashboard.RecentlyActive | src/pages/ParentDashboard.tsx:25 | A kid counts as active exactly when its last-active text is "Just now" or has "hour" at some position. |
| ParentDashboard.ActiveThisWeek | src/pages/ParentDashboard.tsx:25 | The active count never exceeds the roster length. |
| ParentDashboard.ActiveThisWeekAppend | src/pages/ParentDashboard.tsx:25 | Adding a kid raises the count by one exactly when that kid is recently active. |
| ParentDashboard.NewProfileOnDashboard | src/pages/ParentDashboard.tsx:24-25 | A freshly created profile ("Just now", 0 points) raises the active count by one and leaves the total as it was. |
| ParentDashboard.PairAggregates | src/pages/ParentDashboard.tsx:24-25 | On a two-kid roster the total is the sum of both kids' points and the active count is the number of the two that are recently active. |
| ParentDashboard.SampleActivity | src/pages/ParentDashboard.tsx:25 | Emma's "2 hours ago" counts as recent activity; Jake's "Yesterday" does not. |
| ParentDashboard.SampleAggregates | src/pages/ParentDashboard.tsx:24-25 | The sample roster totals 300 points, and only one kid is active ("2 hours ago"; "Yesterday" does not count). |
| ParentDashboard.MinutesThisWeek | src/pages/ParentDashboard.tsx:173 | The minutes figure is 0 for no lessons and never negative for a non-negative lesson count; its link to the lessons is in the next row. |
| ParentDashboard.MinutesAfterLessons | src/pages/ParentDashboard.tsx:173 | No lessons give 0 minutes, and the voices reward adds 15 minutes to any figure. The other two raise the figure to at least 30 and 45 and never lower it. |
| ParentDashboard.WelcomeName | src/pages/ParentDashboard.tsx:85 | The greeting is non-empty and has no space. It is the first word of the parent's name when that word is non-empty, and "Sarah" otherwise. |
| ParentDashboard.WelcomeNameExamples | src/pages/ParentDashboard.tsx:85 | "Sarah Johnson", no parent, and a name that starts with a space all greet "Sarah". |
| ParentDashboard.AvatarLetter | src/pages/ParentDashboard.tsx:65 | One character: the name's first, or "S" without a name. |
| ParentDashboard.MenuName | src/pages/ParentDashboard.tsx:67 | Never empty: the parent's name when there is a parent with a non-empty name, and "Sarah Johnson" when there is no parent or the name is empty. |
| ParentDashboard.Open | src/pages/ParentDashboard.tsx:17-25 | Runs the parent auto-login, then reports the roster's total points and active count. |
| ParentDashboard.HandleLogout | src/pages/ParentDashboard.tsx:27-30 | The store's log-out. |
| KidBadges.EarnedFlags | src/pages/KidBadges.tsx:55-56 | A badge shows as earned exactly when its id is among the kid's badges. |
| KidBadges.EarnedCount | src/pages/KidBadges.tsx:35 | The earned count never exceeds the catalogue (0 to 6). |
| KidBadges.EarnedCountIsShownCount | src/pages/KidBadges.tsx:35 | The count equals the number of badges shown earned. |
| KidBadges.EarnedCountByMembership | src/pages/KidBadges.tsx:35 | The count depends only on which catalogue ids the kid holds, so order and duplicates do not matter. |
| KidBadges.EarnedCountIgnores | src/pages/KidBadges.tsx:35 | A duplicate, or an id outside the catalogue, leaves the count unchanged. |
| KidBadges.EarnedCountNew | src/pages/KidBadges.tsx:35 | A catalogue badge not yet held adds exactly one. |
| KidBadges.VoicesBadgeOnPage | src/pages/KidBadges.tsx:35 | The first voices lesson adds one to the count when the badge was missing; a second adds none. |
| KidBadges.Open | src/pages/KidBadges.tsx:20-35 | Runs the kid auto-login. It shows the render's kid with its earned count (at most 6), or the log-in screen when there is none. |
| KidProgress.LookupKid | src/pages/KidProgress.tsx:53-55 | The first kid with the route id, or else the first kid, or "not found" exactly when the roster is empty. |
| KidProgress.LookupKidExamples | src/pages/KidProgress.tsx:53 | On the sample roster, "2" finds Jake; an unknown or missing id falls back to Emma; an empty roster finds nothing. |
| KidProgress.StatusLabel | src/pages/KidProgress.tsx:221-223 | "Completed", "In Progress", "Premium" and "Locked", each shown exactly when the status and premium flag say so. |
| KidProgress.PointsLabel | src/pages/KidProgress.tsx:228 | "+N" for a completed lesson and "N pts" otherwise, where the digits denote the lesson's points with no leading zero: a zero-point lesson shows the single digit "0". |
| KidProgress.PointsLabelExamples | src/pages/KidProgress.tsx:228 | The first lesson shows "+50" and the fourth "75 pts". |
| KidProgress.LessonTableLabels | src/pages/KidProgress.tsx:25-31 | The five lessons show two completed, one in progress and two premium; none shows "Locked". |
| KidProgress.EarnedShown | src/pages/KidProgress.tsx:253 | The earned count of the tab is at most its length, and zero exactly when no flag is set. |
| KidProgress.BadgesTabSummary | src/pages/KidProgress.tsx:33-40 | The tab shows 2 of 6 earned, and lists the same ids in the same order as the badge page. |
| KidProgress.BadgeFigureCountsCopies | src/pages/KidProgress.tsx:160 | "Badges earned" is the length of the kid's badge list. A second voices lesson raises it while the badge page's count stays. |
| KidProgress.Open | src/pages/KidProgress.tsx:47-61 | Runs the parent auto-login and looks the route id up in the roster the render saw. |
| KidDashboard.ClickTarget | src/pages/KidDashboard.tsx:110 | A click opens the lesson's route exactly when the lesson is not locked. |
| KidDashboard.TableClicks | src/pages/KidDashboard.tsx:7-42 | The voices and famous-people lessons open their routes. The brave-speaking lesson, the only premium one, opens nothing. |
| KidDashboard.AdvertisedPointsMatchRewards | src/pages/KidDashboard.tsx:15-37 | The points the table advertises (50, 50, 100) are those the three lessons' handlers add. |
| KidDashboard.Open | src/pages/KidDashboard.tsx:48-61 | Runs the kid auto-login and shows the render's kid, or the log-in screen when there is no current kid and no roster. |
| KidProfile.AvatarChoices | src/pages/KidProfile.tsx:10 | The picker offers eight different one-character avatars. The sample kids' avatars (src/contexts/AppContext.tsx:48, 61) are not among them. |
| KidProfile.AvatarOnly | src/pages/KidProfile.tsx:35 | `{ avatar }` merged into any kid changes only its avatar. |
| KidProfile.AvatarChangeOnlyAvatar | src/pages/KidProfile.tsx:34-37 | Changing a kid's avatar changes that field of its roster entries, and of the current kid when the ids match, and nothing else. |
| KidProfile.AvatarChangeAfterOpen | src/pages/KidProfile.tsx:19-37 | After the page's auto-login, a picked avatar lands on the current kid and on its roster entry. |
| KidProfile.ProfilePage.constructor | src/pages/KidProfile.tsx:15 | The picker starts closed. |
| KidProfile.ProfilePage.ToggleAvatarPicker | src/pages/KidProfile.tsx:61 | The avatar button flips the picker, so two presses restore it. |
| KidProfile.ProfilePage.HandleAvatarChange | src/pages/KidProfile.tsx:34-37 | Updates the shown kid's avatar through `updateKid` and closes the picker. |
| KidProfile.ProfilePage.HandleLogout | src/pages/KidProfile.tsx:39-42 | The store's log-out. |
| KidProfile.Open | src/pages/KidProfile.tsx:19-32 | Runs the kid auto-login and shows the kid the render saw. |

## Left out

- The kid picker page (src/pages/KidLogin.tsx) is not part of this model. It only passes a roster entry to `loginAsKid` and navigates. The invariant lemmas assume exactly that: a kid logs in from the roster.
- The landing page (src/pages/Index.tsx) and the route table (src/App.tsx) are not part of this model. They are static content and wiring.
- Timers and delays are not modelled. That covers the `setTimeout` waits in the submit handlers and the scheduling of the recording `setInterval`. `Tick` is the interval's step function, and the model allows it in any state, because the source's interval survives `stopRecording`.
- The random encouragement and the fake waveform in the brave-speaking lesson are not modelled, because they use `Math.random`.
- Floating-point percentages are not modelled: lesson and badge progress bars, and the dashboard's progress figure.
- The new kid's id and age come from `Date.now()` and `parseInt`. They are parameters of `CreateKidProfile.CreateKidPage.HandleSubmit`, so a `NaN` age is not modelled.
- Toasts, navigation, charts, styling and HTML `required` attributes are not modelled, because they do not touch the store.
- UI-only state is not modelled: password visibility, tabs, reminder and celebration switches, and the loading flags of the sign-up and log-in forms.
- The brave-speaking premium gate is an empty branch in the source, so the model has nothing for it.
- React batching and stale closures are not modelled. Each handler is one atomic step on the store. For example, `updateKid` tests the render's `currentKid`, and the model tests the store's current one.
- A `Partial<Kid>` that sets a key to `undefined` cannot be expressed as a `KidUpdate`. The spread would write `undefined`; every caller in the source passes defined values.
- The raw setters do not keep `AppContext.ParentSessionConsistent` or `AppContext.KidSessionConsistent` in general. Only the named operations and the pages' own call orders are proved to.
- ParentDashboard.AvatarLetter: `name[0]` takes one UTF-16 code unit, while the model takes one Dafny character, so a name starting outside the Basic Multilingual Plane is not modelled.
- The static slide, card, quiz, chart and recent-activity content is not modelled. Its only logic is the index bounds, which are modelled.
