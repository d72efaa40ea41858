/** The thanks screen's state: its two persisted one-shot flags and what it has emitted. */
module ThanksScreen {
  import opened Wrappers
  import opened Models
  import opened DialogScheduler

  /** The settings update a newsletter signup asks for: the same user, opted in. */
  function NewsletterSignupRequest(user: User): (u: User)
    ensures IsTrue(u.gamesNewsletter) && IsSignedUpToGamesNewsletter(Some(u))
    ensures u.id == user.id && u.country == user.country
  {
    user.(gamesNewsletter := Some(true))
  }

  class ThanksViewModel {
    /** The flags as read when the screen was created (`Observable.just(preference.get())`):
        the decision uses these values, whatever is written later. */
    const hasSeenAppRatingAtEntry: bool
    const hasSeenGamesNewsletterAtEntry: bool
    /** `UserUtils.isLocationGermany`, which is not part of this model. */
    const isLocationGermany: User -> bool

    /** The persisted one-shot flags. */
    var hasSeenAppRatingPreference: bool
    var hasSeenGamesNewsletterPreference: bool
    /** Whether the project has arrived; the intent's project is taken once. */
    var started: bool
    /** Everything emitted on the three dialog channels, oldest first. */
    var events: seq<Event>
    /** The settings updates requested from the API, oldest first. */
    var settingsRequests: seq<User>
    /** The users returned by the updates that succeeded (`signedUpToGamesNewsletter`). */
    var signedUp: seq<User>

    /** At most one of the rating and newsletter dialogs, and only once the project has arrived;
        the rating flag is never written; the newsletter flag is set exactly when it was set on
        entry or the newsletter dialog has been shown; every confirm dialog follows its own
        successful signup, and every signup its own request to opt in. */
    ghost predicate Valid()
      reads this
    {
      && multiset(events)[ShowRatingDialog] + multiset(events)[ShowGamesNewsletterDialog] <= 1
      && (!started ==> ShowRatingDialog !in events && ShowGamesNewsletterDialog !in events)
      && (ShowRatingDialog in events ==> !hasSeenAppRatingAtEntry)
      && (ShowGamesNewsletterDialog in events ==> !hasSeenGamesNewsletterAtEntry)
      && hasSeenAppRatingPreference == hasSeenAppRatingAtEntry
      && hasSeenGamesNewsletterPreference == (hasSeenGamesNewsletterAtEntry || ShowGamesNewsletterDialog in events)
      && multiset(events)[ShowConfirmGamesNewsletterDialog] <= |signedUp| <= |settingsRequests|
      && (forall u :: u in settingsRequests ==> IsTrue(u.gamesNewsletter))
    }

    /** A fresh screen over the stored flags. */
    constructor (hasSeenAppRating: bool, hasSeenGamesNewsletter: bool, isLocationGermany: User -> bool)
      ensures Valid()
      ensures hasSeenAppRatingAtEntry == hasSeenAppRatingPreference == hasSeenAppRating
      ensures hasSeenGamesNewsletterAtEntry == hasSeenGamesNewsletterPreference == hasSeenGamesNewsletter
      ensures this.isLocationGermany == isLocationGermany
      ensures !started && events == [] && settingsRequests == [] && signedUp == []
    {
      hasSeenAppRatingAtEntry, hasSeenGamesNewsletterAtEntry := hasSeenAppRating, hasSeenGamesNewsletter;
      this.isLocationGermany := isLocationGermany;
      hasSeenAppRatingPreference, hasSeenGamesNewsletterPreference := hasSeenAppRating, hasSeenGamesNewsletter;
      started, events, settingsRequests, signedUp := false, [], [], [];
    }

    /** The project arrives with its resolved root category (if any) and the current user as
        the decision sees it. The first arrival decides and emits at most one dialog; showing
        the newsletter dialog writes its flag at once. Later arrivals change nothing. */
    method Start(rootCategory: Option<Category>, user: Option<User>)
      requires Valid()
      modifies this
      ensures Valid() && started
      ensures var emitted := if old(started) then []
                             else DialogEvents(hasSeenAppRatingAtEntry, hasSeenGamesNewsletterAtEntry, rootCategory, user);
        && events == old(events) + emitted
        && hasSeenGamesNewsletterPreference == (old(hasSeenGamesNewsletterPreference) || ShowGamesNewsletterDialog in emitted)
      ensures hasSeenAppRatingPreference == old(hasSeenAppRatingPreference)
      ensures settingsRequests == old(settingsRequests) && signedUp == old(signedUp)
    {
      if !started {
        var emitted := DialogEvents(hasSeenAppRatingAtEntry, hasSeenGamesNewsletterAtEntry, rootCategory, user);
        NewsletterDialogIff(hasSeenAppRatingAtEntry, hasSeenGamesNewsletterAtEntry, rootCategory, user);
        RatingDialogIff(hasSeenAppRatingAtEntry, hasSeenGamesNewsletterAtEntry, rootCategory, user);
        events := events + emitted;
        if ShowGamesNewsletterDialog in emitted {
          hasSeenGamesNewsletterPreference := true;
        }
        started := true;
      }
    }

    /** The user taps "sign up" on the newsletter dialog. `currentUser` is the latest signed-in
        user seen so far, `update` the outcome of the settings update, and `userAtSuccess` the
        latest signed-in user when that update succeeds. Without a signed-in user nothing
        happens; otherwise an opt-in is requested, and only a successful update for a user in
        Germany emits the confirm dialog. A failure emits nothing. */
    method SignupClick(currentUser: Option<User>, update: Fetch<User>, userAtSuccess: User)
      requires Valid()
      modifies this
      ensures Valid()
      ensures settingsRequests == old(settingsRequests)
        + (if currentUser.Some? then [NewsletterSignupRequest(currentUser.value)] else [])
      ensures signedUp == old(signedUp) + (if currentUser.Some? && update.Ok? then [update.value] else [])
      ensures events == old(events)
        + (if currentUser.Some? && update.Ok? && isLocationGermany(userAtSuccess)
           then [ShowConfirmGamesNewsletterDialog] else [])
      ensures started == old(started)
      ensures hasSeenAppRatingPreference == old(hasSeenAppRatingPreference)
      ensures hasSeenGamesNewsletterPreference == old(hasSeenGamesNewsletterPreference)
    {
      if currentUser.Some? {
        settingsRequests := settingsRequests + [NewsletterSignupRequest(currentUser.value)];
        if update.Ok? {
          signedUp := signedUp + [update.value];
          if isLocationGermany(userAtSuccess) {
            events := events + [ShowConfirmGamesNewsletterDialog];
          }
        }
      }
    }
  }

  /** `UserUtils.isLocationGermany` as the walk-throughs below assume it. */
  predicate CountryIsGermany(u: User)
  {
    u.country == Some("DE")
  }

  /** Games project, nothing seen, not signed up: the newsletter dialog alone, its flag
      written at once; a second arrival decides nothing new; a successful signup in Germany
      confirms once and a failed one emits nothing. */
  method GamesVisitScenario()
  {
    var games := Category(12, "games", None, 12);
    var fan := User(3, Some(false), Some("DE"));
    var screen := new ThanksViewModel(false, false, CountryIsGermany);
    screen.Start(Some(games), Some(fan));
    assert screen.events == [ShowGamesNewsletterDialog];
    assert screen.hasSeenGamesNewsletterPreference && !screen.hasSeenAppRatingPreference;
    screen.Start(Some(games.(slug := "art")), Some(fan));
    assert screen.events == [ShowGamesNewsletterDialog];
    screen.SignupClick(Some(fan), Ok(fan.(gamesNewsletter := Some(true))), fan);
    assert screen.events == [ShowGamesNewsletterDialog, ShowConfirmGamesNewsletterDialog];
    screen.SignupClick(Some(fan), Failed, fan);
    assert screen.events == [ShowGamesNewsletterDialog, ShowConfirmGamesNewsletterDialog];
  }

  /** An art project with the rating flag unset: the rating dialog, and no flag written. */
  method ArtVisitScenario()
  {
    var screen := new ThanksViewModel(false, false, CountryIsGermany);
    screen.Start(Some(Category(1, "art", None, 1)), None);
    assert screen.events == [ShowRatingDialog];
    assert !screen.hasSeenGamesNewsletterPreference && !screen.hasSeenAppRatingPreference;
  }

  /** A project without a category: no dialog at all. */
  method UncategorisedVisitScenario()
  {
    var screen := new ThanksViewModel(false, false, CountryIsGermany);
    screen.Start(None, None);
    assert screen.events == [];
  }
}
