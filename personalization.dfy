/** The personalization dashboard: a user profile kept in component state and
    mirrored to local storage under "adsense-calculator-profile", partial
    profile and preference updates, goal toggling, and the traffic tier. */
module Personalization {
  import opened JsValues
  import opened Seqs

  datatype Theme = Light | Dark | Auto

  datatype Preferences = Preferences(
    theme: Theme, notifications: bool, autoSave: bool, currency: string, language: string)

  datatype UserProfile = UserProfile(
    name: string, website: string, niche: string, geography: string,
    monthlyViews: string, goals: seq<string>, preferences: Preferences)

  /** `Partial<UserProfile>`: `None` is a key the update does not supply. */
  datatype ProfileUpdate = ProfileUpdate(
    name: Option<string>, website: Option<string>, niche: Option<string>,
    geography: Option<string>, monthlyViews: Option<string>,
    goals: Option<seq<string>>, preferences: Option<Preferences>)

  /** `Partial<UserProfile["preferences"]>`. */
  datatype PreferencesUpdate = PreferencesUpdate(
    theme: Option<Theme>, notifications: Option<bool>, autoSave: Option<bool>,
    currency: Option<string>, language: Option<string>)

  const NoProfileChange := ProfileUpdate(None, None, None, None, None, None, None)
  const NoPreferenceChange := PreferencesUpdate(None, None, None, None, None)

  const DefaultProfile := UserProfile("", "", "general", "us", "", [],
    Preferences(Auto, true, true, "USD", "en"))

  function Pick<T>(supplied: Option<T>, current: T): T {
    if supplied.Some? then supplied.value else current
  }

  /** `{ ...profile, ...updates }`. */
  function MergeProfile(p: UserProfile, u: ProfileUpdate): UserProfile {
    UserProfile(
      Pick(u.name, p.name), Pick(u.website, p.website), Pick(u.niche, p.niche),
      Pick(u.geography, p.geography), Pick(u.monthlyViews, p.monthlyViews),
      Pick(u.goals, p.goals), Pick(u.preferences, p.preferences))
  }

  /** `{ ...profile.preferences, ...updates }`. */
  function MergePreferences(p: Preferences, u: PreferencesUpdate): Preferences {
    Preferences(
      Pick(u.theme, p.theme), Pick(u.notifications, p.notifications),
      Pick(u.autoSave, p.autoSave), Pick(u.currency, p.currency),
      Pick(u.language, p.language))
  }

  /** A merge overwrites exactly the supplied fields. */
  lemma MergeProfileOverwritesSupplied(p: UserProfile, u: ProfileUpdate)
    ensures var q := MergeProfile(p, u);
      && (u.name.Some? ==> q.name == u.name.value) && (u.name.None? ==> q.name == p.name)
      && (u.website.Some? ==> q.website == u.website.value) && (u.website.None? ==> q.website == p.website)
      && (u.niche.Some? ==> q.niche == u.niche.value) && (u.niche.None? ==> q.niche == p.niche)
      && (u.geography.Some? ==> q.geography == u.geography.value) && (u.geography.None? ==> q.geography == p.geography)
      && (u.monthlyViews.Some? ==> q.monthlyViews == u.monthlyViews.value)
      && (u.monthlyViews.None? ==> q.monthlyViews == p.monthlyViews)
      && (u.goals.Some? ==> q.goals == u.goals.value) && (u.goals.None? ==> q.goals == p.goals)
      && (u.preferences.Some? ==> q.preferences == u.preferences.value)
      && (u.preferences.None? ==> q.preferences == p.preferences)
  {
  }

  /** An update that supplies nothing changes nothing, and applying the same
      update twice is the same as applying it once. */
  lemma MergeProfileIdentityAndIdempotent(p: UserProfile, u: ProfileUpdate)
    ensures MergeProfile(p, NoProfileChange) == p
    ensures MergeProfile(MergeProfile(p, u), u) == MergeProfile(p, u)
  {
  }

  /** Two successive updates act as one update in which the later one wins. */
  function Then(first: ProfileUpdate, second: ProfileUpdate): ProfileUpdate {
    ProfileUpdate(
      if second.name.Some? then second.name else first.name,
      if second.website.Some? then second.website else first.website,
      if second.niche.Some? then second.niche else first.niche,
      if second.geography.Some? then second.geography else first.geography,
      if second.monthlyViews.Some? then second.monthlyViews else first.monthlyViews,
      if second.goals.Some? then second.goals else first.goals,
      if second.preferences.Some? then second.preferences else first.preferences)
  }

  lemma MergeProfileComposes(p: UserProfile, first: ProfileUpdate, second: ProfileUpdate)
    ensures MergeProfile(MergeProfile(p, first), second) == MergeProfile(p, Then(first, second))
  {
  }

  /** A preference merge overwrites exactly the supplied preferences, and
      an empty one changes nothing. */
  lemma MergePreferencesOverwritesSupplied(p: Preferences, u: PreferencesUpdate)
    ensures var q := MergePreferences(p, u);
      && (u.theme.Some? ==> q.theme == u.theme.value) && (u.theme.None? ==> q.theme == p.theme)
      && (u.notifications.Some? ==> q.notifications == u.notifications.value)
      && (u.notifications.None? ==> q.notifications == p.notifications)
      && (u.autoSave.Some? ==> q.autoSave == u.autoSave.value) && (u.autoSave.None? ==> q.autoSave == p.autoSave)
      && (u.currency.Some? ==> q.currency == u.currency.value) && (u.currency.None? ==> q.currency == p.currency)
      && (u.language.Some? ==> q.language == u.language.value) && (u.language.None? ==> q.language == p.language)
    ensures MergePreferences(p, NoPreferenceChange) == p
  {
  }

  /** The new goal list of `toggleGoal`: a present goal is removed (every
      copy), an absent one is appended at the end. */
  function ToggledGoals(goals: seq<string>, goal: string): (r: seq<string>)
    ensures goal in goals ==> goal !in r && forall g :: g in r <==> g in goals && g != goal
    ensures goal in goals ==> IsSubsequence(r, goals)
    ensures goal in goals ==> |r| == |goals| - CountWhere(goals, (g: string) => g == goal)
    ensures goal !in goals ==> r == goals + [goal]
  {
    FilterIsSubsequence(goals, (g: string) => g != goal);
    FilterLength(goals, (g: string) => g != goal, (g: string) => g == goal);
    if goal in goals then Filter(goals, (g: string) => g != goal) else goals + [goal]
  }

  /** Toggling an absent goal twice restores the original list. */
  lemma ToggleTwiceRestores(goals: seq<string>, goal: string)
    requires goal !in goals
    ensures ToggledGoals(ToggledGoals(goals, goal), goal) == goals
  {
    var keep := (g: string) => g != goal;
    FilterAppend(goals, [goal], keep);
    FilterKeepsAll(goals, keep);
    assert Filter([goal], keep) == [];
  }

  /** Toggling a present goal twice moves it, as a single copy, to the end. */
  lemma ToggleTwiceMovesToEnd(goals: seq<string>, goal: string)
    requires goal in goals
    ensures ToggledGoals(ToggledGoals(goals, goal), goal) == Filter(goals, (g: string) => g != goal) + [goal]
  {
  }

  class Dashboard {
    var profile: UserProfile
    /** The "adsense-calculator-profile" entry of local storage. */
    var stored: Option<UserProfile>

    constructor (storage: Option<UserProfile>)
      ensures profile == DefaultProfile && stored == storage
    {
      profile := DefaultProfile;
      stored := storage;
    }

    /** The mount effect: a stored profile replaces the default one. */
    method Load()
      modifies this`profile
      ensures profile == if stored.Some? then stored.value else old(profile)
    {
      if stored.Some? {
        profile := stored.value;
      }
    }

    /** `saveProfile`: write the current profile to storage. */
    method SaveProfile()
      modifies this`stored
      ensures stored == Some(profile)
    {
      stored := Some(profile);
    }

    /** `updateProfile`: merge the supplied fields and store the result. */
    method UpdateProfile(u: ProfileUpdate)
      modifies this`profile, this`stored
      ensures profile == MergeProfile(old(profile), u)
      ensures stored == Some(profile)
    {
      var newProfile := MergeProfile(profile, u);
      profile := newProfile;
      stored := Some(newProfile);
    }

    /** `updatePreferences`: merge the supplied preferences; every top-level
        field stays as it was; store the result. */
    method UpdatePreferences(u: PreferencesUpdate)
      modifies this`profile, this`stored
      ensures profile.preferences == MergePreferences(old(profile).preferences, u)
      ensures profile == old(profile).(preferences := profile.preferences)
      ensures stored == Some(profile)
    {
      var newProfile := profile.(preferences := MergePreferences(profile.preferences, u));
      profile := newProfile;
      stored := Some(newProfile);
    }

    /** `toggleGoal`: an update that supplies only the new goal list. */
    method ToggleGoal(goal: string)
      modifies this`profile, this`stored
      ensures profile == old(profile).(goals := ToggledGoals(old(profile).goals, goal))
      ensures stored == Some(profile)
    {
      var newGoals := if goal in profile.goals then Filter(profile.goals, (g: string) => g != goal)
                      else profile.goals + [goal];
      UpdateProfile(ProfileUpdate(None, None, None, None, None, Some(newGoals), None));
    }
  }

  datatype Tier = HighTraffic | MediumTraffic | Growing

  /** The traffic tier named for `Number(monthlyViews)`. NaN falls through
      both comparisons to "growing". */
  function TrafficTier(views: Number): (t: Tier)
    ensures t == HighTraffic <==> Above(views, 1000000.0)
    ensures t == MediumTraffic <==> Above(views, 100000.0) && !Above(views, 1000000.0)
  {
    if Above(views, 1000000.0) then HighTraffic
    else if Above(views, 100000.0) then MediumTraffic
    else Growing
  }

  /** The recommendation blocks rendered, in order: each block has its own
      guard, `> 1000000`, `<= 1000000 && > 100000` and `<= 100000`. */
  function Recommendations(views: Number): seq<Tier> {
    (if Above(views, 1000000.0) then [HighTraffic] else [])
    + (if AtMost(views, 1000000.0) && Above(views, 100000.0) then [MediumTraffic] else [])
    + (if AtMost(views, 100000.0) then [Growing] else [])
  }

  /** For a number, exactly one recommendation block is shown, and it is the
      one for the named tier. */
  lemma OneRecommendationForNumbers(views: Number)
    requires views.Num?
    ensures Recommendations(views) == [TrafficTier(views)]
  {
    ComparisonDichotomy(views, 1000000.0);
    ComparisonDichotomy(views, 100000.0);
  }

  /** For NaN the text names the "growing" tier, yet no block is shown. */
  lemma NoRecommendationForNaN()
    ensures TrafficTier(NaN) == Growing
    ensures Recommendations(NaN) == []
  {
  }
}
