# Thanks screen orchestration, modelled in Dafny

After a successful pledge the Kickstarter Android app shows a "thanks" screen. This project
models the logic of that screen's view model.

- **Root category.** It resolves the root category of the backed project.
- **Related projects.** It builds a shelf of at most three related projects. The projects come
  from three catalog queries, merged in a fixed priority order, de-duplicated and cut to three.
- **Rating or newsletter dialog.** It decides once per visit whether to show the app-rating
  dialog or the games-newsletter dialog, never both. Showing the newsletter dialog writes its
  one-shot "seen" flag.
- **Newsletter signup.** On a newsletter signup it asks the API to opt the user in. Only a
  successful update for a user located in Germany emits the confirm-newsletter dialog.

The Rx wiring is replaced by values:

- A network call is a `Fetch`: `Ok(value)` or `Failed`, the call's outcome after any retries.
- The shuffle of the recommended page is an arbitrary permutation, passed in as `shuffled`.
  Its only constraint is that its multiset equals the page's.
- The output channels are one append-only event log on the `ThanksViewModel` class.

Modules:

- `Wrappers`: `Option` and `Fetch`.
- `Models`: `Category`, `Project`, `User` and `DiscoveryParams`, with only the fields the screen
  reads.
- `RootCategoryResolver`: `rootCategory`.
- `RelatedProjectsResolver`: `relatedProjects`, the three queries, and Rx `distinct()`/`take()`
  over sequences.
- `DialogScheduler`: the dialog decision, plus the decision as its two subscriptions compute it.
- `ThanksScreen`: the `ThanksViewModel` class. It holds the preference flags, the event log, the
  settings requests sent, and `Start`/`SignupClick`.

Where the code and the design description disagree, the model follows the code:

- **A failing query ends the merge.** The design says a failing query becomes an empty
  contribution. In the code, an error in one of the concatenated queries ends the whole
  stream: `neverError` comes after `concat`. The later queries are never consulted, and the
  projects already collected are kept.
- **The confirm dialog does not require the newsletter dialog.** The design says the
  confirm dialog can only follow the newsletter dialog. The view model does not check that: any
  signup click with a signed-in user can lead to it.
- **Germany is checked on the latest signed-in user.** After a successful update, the code tests
  the user the session stream last held. It does not test the user the update returned.
- **The decision is computed twice.** The design says the rating and newsletter checks use one
  latched decision. The code computes that decision once per subscription (see Findings).

## Model

| member | source | states |
|---|---|---|
| RootCategoryResolver.CategoryLookup | app/src/main/java/com/kickstarter/viewmodels/ThanksViewModel.java:280-291 | a category is fetched exactly when the project has a category without an embedded parent, and the identifier fetched is the category's root identifier |
| RootCategoryResolver.RootCategoryCases | app/src/main/java/com/kickstarter/viewmodels/ThanksViewModel.java:280-293 | no category gives nothing; an embedded parent is returned as is; otherwise the fetched root category, or nothing when the fetch fails |
| RootCategoryResolver.RootCategoryNeedsNoFetch | app/src/main/java/com/kickstarter/viewmodels/ThanksViewModel.java:283-289 | when no fetch is issued, the result does not depend on what the API would answer |
| RootCategoryResolver.RootCategoryAbsentOnlyOnFailure | app/src/main/java/com/kickstarter/viewmodels/ThanksViewModel.java:291-292 | for a project with a category, nothing is produced exactly when the lookup was needed and failed; the failure is never an error |
| RelatedProjectsResolver.DedupFrom | app/src/main/java/com/kickstarter/viewmodels/ThanksViewModel.java:339 | `distinct()` by identifier: the output has no repeated identifier, contains exactly the identifiers not already seen, and only projects of the input |
| RelatedProjectsResolver.DedupFromKeepsFirstOccurrences | app/src/main/java/com/kickstarter/viewmodels/ThanksViewModel.java:339 | each project kept is the first project of the stream with its identifier (first occurrence wins) |
| RelatedProjectsResolver.DedupFromInFirstOccurrenceOrder | app/src/main/java/com/kickstarter/viewmodels/ThanksViewModel.java:339 | the projects kept appear in stream order of their first occurrences |
| RelatedProjectsResolver.DedupFromAppend | app/src/main/java/com/kickstarter/viewmodels/ThanksViewModel.java:337-339 | de-duplicating a concatenation is de-duplicating the first part, then the second part without the identifiers the first part showed |
| RelatedProjectsResolver.DistinctOfThree | app/src/main/java/com/kickstarter/viewmodels/ThanksViewModel.java:337-339 | the same for three streams in a row: each loses the identifiers the earlier ones showed |
| RelatedProjectsResolver.DedupFromOfDistinct | app/src/main/java/com/kickstarter/viewmodels/ThanksViewModel.java:339 | a stream whose identifiers are distinct and unseen passes through `distinct()` unchanged |
| RelatedProjectsResolver.PermutationKeepsNoDuplicateIds | app/src/main/java/com/kickstarter/viewmodels/ThanksViewModel.java:323 | shuffling a page with distinct identifiers keeps them distinct |
| RelatedProjectsResolver.QueriesSelectOneStrategy | app/src/main/java/com/kickstarter/viewmodels/ThanksViewModel.java:300-318 | each of the three queries excludes backed projects and turns on exactly one strategy; recommended asks for 6, similar and staff picks for 3; only staff picks filter by category, using the root of the project's category, or none |
| RelatedProjectsResolver.MergeRelated | app/src/main/java/com/kickstarter/viewmodels/ThanksViewModel.java:320-341 | the list has at most three projects, no repeated identifier, and every project comes from a source that answered |
| RelatedProjectsResolver.RelatedProjects | app/src/main/java/com/kickstarter/viewmodels/ThanksViewModel.java:299-342 | for any API outcomes and any shuffle, the list has at most three projects with distinct identifiers, and no error is produced |
| RelatedProjectsResolver.MergeRelatedInPriorityOrder | app/src/main/java/com/kickstarter/viewmodels/ThanksViewModel.java:320-340 | when all sources answer, the result is the first three of: the distinct shuffled top three recommendations, then similar projects not yet shown, then staff picks not yet shown |
| RelatedProjectsResolver.MergeRelatedStopsAtFailure | app/src/main/java/com/kickstarter/viewmodels/ThanksViewModel.java:320-338 | a failing source ends the merge: failed recommendations give the empty list; a failed similar query gives the distinct top-three recommendations; failed staff picks give the first three distinct of recommendations and similar projects |
| RelatedProjectsResolver.FullRecommendationsWin | app/src/main/java/com/kickstarter/viewmodels/ThanksViewModel.java:320-340 | when the first three shuffled recommendations are distinct, they are the result, in shuffled order, with nothing from similar projects or staff picks |
| RelatedProjectsResolver.DistinctRecommendedPageWins | app/src/main/java/com/kickstarter/viewmodels/ThanksViewModel.java:320-340 | a recommended page of at least three distinct projects fills the list whatever the shuffle; every project shown is a recommendation |
| RelatedProjectsResolver.LaterSourcesIgnoredWhenFull | app/src/main/java/com/kickstarter/viewmodels/ThanksViewModel.java:337-340 | once the recommendations give three distinct projects, the similar and staff-pick outcomes do not affect the result |
| RelatedProjectsResolver.OnlyStaffPicksAnswer | app/src/main/java/com/kickstarter/viewmodels/ThanksViewModel.java:320-340 | with no recommendations and no similar projects, the result is the first three staff picks in their original order |
| RelatedProjectsResolver.AllSourcesFailing | app/src/main/java/com/kickstarter/viewmodels/ThanksViewModel.java:337-341 | all sources failing gives the empty list, not an error |
| DialogScheduler.DialogEvents | app/src/main/java/com/kickstarter/viewmodels/ThanksViewModel.java:171-231 | a visit emits at most one dialog, and never the confirm dialog |
| DialogScheduler.NewsletterDialogIff | app/src/main/java/com/kickstarter/viewmodels/ThanksViewModel.java:171-183 | the newsletter dialog is shown exactly when the root slug is "games", the newsletter-seen flag is false and the user is absent or not opted in |
| DialogScheduler.RatingDialogIff | app/src/main/java/com/kickstarter/viewmodels/ThanksViewModel.java:220-226 | the rating dialog is shown exactly when the rating flag is false and the newsletter decision came out false; never both dialogs; neither without a root category |
| DialogScheduler.NonGamesCategoryShowsRating | app/src/main/java/com/kickstarter/viewmodels/ThanksViewModel.java:171-226 | a non-games root category with the rating flag unset shows the rating dialog alone |
| DialogScheduler.AsWrittenAgreesWhenViewsAgree | app/src/main/java/com/kickstarter/viewmodels/ThanksViewModel.java:220-231 | when both subscriptions see the same root category and user, they emit exactly what the single decision emits |
| DialogScheduler.AsWrittenCanShowBoth | app/src/main/java/com/kickstarter/viewmodels/ThanksViewModel.java:220-231 | when the user opts in between the two subscriptions' decisions, both dialogs are emitted |
| ThanksScreen.NewsletterSignupRequest | app/src/main/java/com/kickstarter/viewmodels/ThanksViewModel.java:344-348 | the requested update is the same user with the games newsletter on |
| ThanksScreen.ThanksViewModel.constructor | app/src/main/java/com/kickstarter/viewmodels/ThanksViewModel.java:151-157 | a new screen has the stored flags, no events and no requests |
| ThanksScreen.ThanksViewModel.Start | app/src/main/java/com/kickstarter/viewmodels/ThanksViewModel.java:220-235 | the first arrival appends the single decision's dialogs to the log; showing the newsletter dialog sets its flag; the rating flag is never written; mutual exclusion and the flag invariants are kept |
| ThanksScreen.ThanksViewModel.SignupClick | app/src/main/java/com/kickstarter/viewmodels/ThanksViewModel.java:237-249 | with a signed-in user, an opt-in is requested; only a successful update adds a signed-up user, and then a confirm dialog when the latest user is in Germany; a failure emits nothing; no flag changes |

## Left out

- Analytics (`koala.track*`): fire-and-forget calls with no logic.
- Intent parsing and `bindToLifecycle`: these are Android lifecycle plumbing. The project is given
  directly, and teardown is not modelled.
- The project-name, project-click, share-click and category-click outputs are not modelled. They
  pass values through without deciding anything. The unused `projectsAndRootCategory` is dead
  code and is also not modelled.
- Recommendations pairing: the shelf pairs the related list with the root category
  (`zipPair`), so recommendations are shown only when a root category is produced. The pairing
  itself is not modelled.
- Transport and retry timing: only each call's final outcome after `retry(2)` is modelled.
- Concurrency and in-flight ordering of the fetches are not modelled. `concat` fixes the merge
  order anyway.
- Randomness: `ListUtils.shuffle` is an arbitrary permutation given as a parameter.
- `UserUtils.isLocationGermany` is not part of this model. It is a function the class is
  constructed with.
- The Java classes `Category`, `Project`, `User` and `DiscoveryParams` are not part of this
  model. They are datatypes with only the fields the screen reads.
- `Category.root()` is taken to be the embedded parent when there is one, else the category
  itself.
- Project equality: `distinct()` compares projects by identifier. This follows the design's
  requirement. The Java value classes use structural equality.
- RelatedProjectsResolver.FullRecommendationsWin: does not assume only "the page has at least
  three distinct projects". The page is cut to three before de-duplication, so the lemma needs
  the first three shuffled projects to be distinct. DistinctRecommendedPageWins covers the case
  where the whole page is distinct.
- ThanksScreen.ThanksViewModel.Start: takes one root category and one user for both
  subscriptions. The case where the subscriptions differ is DialogScheduler.DialogEventsAsWritten.
- ThanksScreen.ThanksViewModel.SignupClick: `currentUser` and `userAtSuccess` are the latest
  signed-in users at click and at success. How the session stream produces them is not modelled.

## Findings

| source | as written | input that shows it | evidently intended | confidence | as-written member | corrected member |
|---|---|---|---|---|---|---|
| app/src/main/java/com/kickstarter/viewmodels/ThanksViewModel.java:220-231 | The rating subscription (:220) and the newsletter subscription (:228) each subscribe to the cold `showGamesNewsletter`. Each therefore runs its own root-category lookup and reads the user stream when its own lookup completes. | A games project whose root category is fetched, with both flags unset. The user is not opted in when the newsletter subscription decides and has opted in when the rating subscription decides. Both the rating dialog and the newsletter dialog are emitted. | One latched decision shared by both checks, so the two dialogs exclude each other | low; depends on the user changing between two lookups; not executed | DialogScheduler.DialogEventsAsWritten (shown by DialogScheduler.AsWrittenCanShowBoth) | DialogScheduler.DialogEvents (DialogScheduler.RatingDialogIff proves exclusion) |
