/** Which follow-up dialog the thanks screen shows: the app-rating prompt or the games
    newsletter prompt, never both, decided once per visit. */
module DialogScheduler {
  import opened Wrappers
  import opened Models

  /** What the screen tells its view to do. */
  datatype Event = ShowRatingDialog | ShowGamesNewsletterDialog | ShowConfirmGamesNewsletterDialog

  /** `BooleanUtils.isTrue` on a nullable Boolean. */
  predicate IsTrue(b: Option<bool>)
  {
    b == Some(true)
  }

  /** `isSignedUpToGamesNewsletter`: a user is signed in and has opted in. */
  predicate IsSignedUpToGamesNewsletter(user: Option<User>)
  {
    user.Some? && IsTrue(user.value.gamesNewsletter)
  }

  /** The first value of `showGamesNewsletter`, the `combineLatest` of the root category's
      class, the newsletter-seen flag and the user's signup state, cut by `take(1)`.
      Without a root category the combination never fires: `None`. */
  function ShowGamesNewsletter(rootCategory: Option<Category>, hasSeenNewsletter: bool,
                               user: Option<User>): Option<bool>
  {
    match rootCategory
    case None => None
    case Some(c) => Some(c.slug == "games" && !hasSeenNewsletter && !IsSignedUpToGamesNewsletter(user))
  }

  /** The dialogs a visit emits when both subscriptions see the same root category and user:
      the newsletter dialog when the decision is true, otherwise the rating dialog unless
      its flag is already set. */
  function DialogEvents(hasSeenRating: bool, hasSeenNewsletter: bool,
                        rootCategory: Option<Category>, user: Option<User>): (events: seq<Event>)
    ensures |events| <= 1
    ensures ShowConfirmGamesNewsletterDialog !in events
  {
    match ShowGamesNewsletter(rootCategory, hasSeenNewsletter, user)
    case None => []
    case Some(true) => [ShowGamesNewsletterDialog]
    case Some(false) => if hasSeenRating then [] else [ShowRatingDialog]
  }

  /** The newsletter dialog is shown exactly when the root category is "games", the dialog
      has not been seen and the user has not signed up. */
  lemma NewsletterDialogIff(hasSeenRating: bool, hasSeenNewsletter: bool,
                            rootCategory: Option<Category>, user: Option<User>)
    ensures ShowGamesNewsletterDialog in DialogEvents(hasSeenRating, hasSeenNewsletter, rootCategory, user)
      <==> rootCategory.Some? && rootCategory.value.slug == "games"
           && !hasSeenNewsletter && !IsSignedUpToGamesNewsletter(user)
  {
  }

  /** The rating dialog is shown exactly when a root category was produced, the rating flag is
      unset and the newsletter decision came out false; the two are never both shown. */
  lemma RatingDialogIff(hasSeenRating: bool, hasSeenNewsletter: bool,
                        rootCategory: Option<Category>, user: Option<User>)
    ensures ShowRatingDialog in DialogEvents(hasSeenRating, hasSeenNewsletter, rootCategory, user)
      <==> ShowGamesNewsletter(rootCategory, hasSeenNewsletter, user) == Some(false) && !hasSeenRating
    ensures !(ShowRatingDialog in DialogEvents(hasSeenRating, hasSeenNewsletter, rootCategory, user)
              && ShowGamesNewsletterDialog in DialogEvents(hasSeenRating, hasSeenNewsletter, rootCategory, user))
    ensures rootCategory.None? ==> DialogEvents(hasSeenRating, hasSeenNewsletter, rootCategory, user) == []
  {
  }

  /** A non-games root category short-circuits the newsletter logic: the rating dialog alone is
      shown whenever its flag is unset. */
  lemma NonGamesCategoryShowsRating(hasSeenNewsletter: bool, c: Category, user: Option<User>)
    requires c.slug != "games"
    ensures DialogEvents(false, hasSeenNewsletter, Some(c), user) == [ShowRatingDialog]
  {
  }

  // ---------------------------------------------------------------------------
  // The decision as the subscriptions compute it

  /** What the two subscriptions emit when each sees its own root category and user. The
      rating subscription and the newsletter subscription each subscribe to the cold
      `showGamesNewsletter`, so each runs its own root-category lookup and reads the user
      stream when its own lookup completes; only the newsletter-seen flag is read once. */
  function DialogEventsAsWritten(hasSeenRating: bool, hasSeenNewsletter: bool,
                                 ratingRoot: Option<Category>, ratingUser: Option<User>,
                                 newsletterRoot: Option<Category>, newsletterUser: Option<User>): (events: seq<Event>)
    ensures |events| <= 2 && ShowConfirmGamesNewsletterDialog !in events
    ensures ShowRatingDialog in events ==> !hasSeenRating && ratingRoot.Some?
  {
    (if !hasSeenRating && ShowGamesNewsletter(ratingRoot, hasSeenNewsletter, ratingUser) == Some(false)
     then [ShowRatingDialog] else [])
    + (if ShowGamesNewsletter(newsletterRoot, hasSeenNewsletter, newsletterUser) == Some(true)
       then [ShowGamesNewsletterDialog] else [])
  }

  /** When both subscriptions see the same root category and user, they emit what the single
      decision emits. */
  lemma AsWrittenAgreesWhenViewsAgree(hasSeenRating: bool, hasSeenNewsletter: bool,
                                      rootCategory: Option<Category>, user: Option<User>)
    ensures DialogEventsAsWritten(hasSeenRating, hasSeenNewsletter, rootCategory, user, rootCategory, user)
         == DialogEvents(hasSeenRating, hasSeenNewsletter, rootCategory, user)
  {
  }

  /** A user who signs up for the newsletter between the two decisions gets both dialogs: the
      newsletter subscription decided before the signup, the rating subscription after it. */
  lemma AsWrittenCanShowBoth()
    ensures var games := Category(1, "games", None, 1);
      var before := User(7, Some(false), None);
      var after := User(7, Some(true), None);
      DialogEventsAsWritten(false, false, Some(games), Some(after), Some(games), Some(before))
        == [ShowRatingDialog, ShowGamesNewsletterDialog]
  {
  }
}
