/**
 * The profile page of `src/pages/Profile.tsx`: the six-field form, edited one
 * field at a time, saved into the session store by a shallow merge, and the
 * avatar and principal shown beside it.
 */
module Profile {
  import opened Wrappers
  import opened Session
  import Text

  /** `formData`. */
  datatype FormData = FormData(
    name: string, email: string, bio: string, website: string, twitter: string, discord: string)

  /** The keys `handleInputChange` is called with. */
  datatype FormField = NameField | EmailField | BioField | WebsiteField | TwitterField | DiscordField

  function Get(form: FormData, f: FormField): string {
    match f
    case NameField => form.name
    case EmailField => form.email
    case BioField => form.bio
    case WebsiteField => form.website
    case TwitterField => form.twitter
    case DiscordField => form.discord
  }

  /** `{ ...prev, [field]: value }`: the field gets the value and the other five keep theirs. */
  function SetField(form: FormData, f: FormField, v: string): (r: FormData)
    ensures Get(r, f) == v
    ensures forall g :: g != f ==> Get(r, g) == Get(form, g)
  {
    match f
    case NameField => form.(name := v)
    case EmailField => form.(email := v)
    case BioField => form.(bio := v)
    case WebsiteField => form.(website := v)
    case TwitterField => form.(twitter := v)
    case DiscordField => form.(discord := v)
  }

  /** The form's first value: each field from the user, or '' when missing or signed out. */
  function InitialForm(user: Option<User>): (form: FormData)
    ensures user.None? ==> form == FormData("", "", "", "", "", "")
    ensures user.Some? ==> form.name == user.value.name && form.email == user.value.email.GetOr("")
    ensures user.Some? ==> form.bio == user.value.bio.GetOr("") && form.website == user.value.website.GetOr("")
    ensures user.Some? ==> form.twitter == user.value.twitter.GetOr("") && form.discord == user.value.discord.GetOr("")
  {
    if user.None? then FormData("", "", "", "", "", "")
    else
      var u := user.value;
      FormData(u.name, u.email.GetOr(""), u.bio.GetOr(""), u.website.GetOr(""),
               u.twitter.GetOr(""), u.discord.GetOr(""))
  }

  /** `updateProfile(formData)`: all six keys supplied, nothing else. */
  function SavePatch(form: FormData): Patch {
    NoChanges.(name := Some(form.name), email := Some(form.email), bio := Some(form.bio),
               website := Some(form.website), twitter := Some(form.twitter),
               discord := Some(form.discord))
  }

  /** Saving overwrites the six profile fields, empty ones included, and keeps id, principal, role and avatar. */
  lemma SaveMerges(u: User, form: FormData)
    ensures var saved := Merge(u, SavePatch(form));
      && saved.id == u.id && saved.principal == u.principal
      && saved.role == u.role && saved.avatar == u.avatar
      && saved.name == form.name && saved.email == Some(form.email)
      && saved.bio == Some(form.bio) && saved.website == Some(form.website)
      && saved.twitter == Some(form.twitter) && saved.discord == Some(form.discord)
  {
  }

  /** After a save, the form the page would build from the stored user is the form that was saved. */
  lemma SaveThenReopen(u: User, form: FormData)
    ensures InitialForm(Some(Merge(u, SavePatch(form)))) == form
  {
  }

  /** Saving the untouched form changes nothing for a user whose optional fields are all set (a missing one would become ''). */
  lemma UnchangedFormSavesNothingNew(u: User)
    requires u.email.Some? && u.bio.Some? && u.website.Some? && u.twitter.Some? && u.discord.Some?
    ensures Merge(u, SavePatch(InitialForm(Some(u)))) == u
  {
  }

  /** The length the bio counter shows, against its stated limit. */
  const BioLimit: nat := 160

  function BioCount(form: FormData): (count: nat)
    ensures count == |Get(form, BioField)|
  {
    |form.bio|
  }

  /** The counter follows the edits: only a change of the bio field moves it, to the new text's length. */
  lemma BioCountFollowsEdits(form: FormData, f: FormField, v: string)
    ensures BioCount(SetField(form, f, v)) == if f == BioField then |v| else BioCount(form)
  {
  }

  /** The limit is only shown: a longer bio is saved as it is. */
  lemma BioLimitNotEnforced(u: User, form: FormData)
    requires BioCount(form) > BioLimit
    ensures Merge(u, SavePatch(form)).bio == Some(form.bio)
  {
  }

  /** The avatar picked from a clock-derived seed. */
  function AvatarUrl(seed: string): string {
    "https://api.dicebear.com/7.x/avataaars/svg?seed=" + seed
  }

  function AvatarPatch(avatar: string): Patch {
    NoChanges.(avatar := Some(avatar))
  }

  /** An avatar change updates the avatar and nothing else. */
  lemma AvatarOnly(u: User, avatar: string)
    ensures Merge(u, AvatarPatch(avatar)) == u.(avatar := avatar)
  {
  }

  /** `principal.slice(0, 8) + "..." + principal.slice(-4)`; signed out, only the dots remain. */
  function PrincipalLabel(principal: Option<string>): (shown: string)
    ensures principal.None? ==> shown == "..."
    ensures principal.Some? ==> |shown| <= 2 * |principal.value| + 3
    ensures principal.Some? ==> var p := principal.value;
      shown == (if |p| > 8 then p[..8] else p) + "..." + (if |p| > 4 then p[|p| - 4..] else p)
  {
    if principal.None? then "..."
    else
      Text.SlicePrefix(principal.value, 8);
      Text.SliceSuffix(principal.value, 4);
      Text.Slice(principal.value, 0, 8) + "..." + Text.SliceFrom(principal.value, -4)
  }

  /** A long principal shows its first 8 and last 4 characters; a short one shows itself twice. */
  lemma PrincipalLabelShapes(p: string)
    ensures |p| >= 8 ==> PrincipalLabel(Some(p)) == p[..8] + "..." + p[|p| - 4..]
    ensures |p| >= 12 ==> |PrincipalLabel(Some(p))| == 15
    ensures |p| <= 4 ==> PrincipalLabel(Some(p)) == p + "..." + p
  {
    Text.SlicePrefix(p, 8);
    Text.SliceSuffix(p, 4);
  }

  /** The page's state: the form, the saving flag, and the session store it saves into. */
  class ProfilePage {
    const store: SessionStore
    var formData: FormData
    var isLoading: bool

    constructor (store: SessionStore)
      ensures this.store == store && formData == InitialForm(store.user) && !isLoading
    {
      this.store := store;
      formData := InitialForm(store.user);
      isLoading := false;
    }

    method HandleInputChange(f: FormField, v: string)
      modifies this
      ensures formData == SetField(old(formData), f, v) && isLoading == old(isLoading)
    {
      formData := SetField(formData, f, v);
    }

    /** `handleSave`, first half: raise the flag and start the timer. */
    method HandleSave()
      modifies this
      ensures isLoading && formData == old(formData)
    {
      isLoading := true;
    }

    /** The save timer firing: push the form into the store and lower the flag. */
    method SaveTimerFired()
      modifies this, store
      ensures store.Snapshot() == Updated(old(store.Snapshot()), SavePatch(formData))
      ensures !isLoading && formData == old(formData)
      ensures old(store.user).Some? ==> InitialForm(store.user) == formData
    {
      store.UpdateProfile(SavePatch(formData));
      isLoading := false;
      if old(store.user).Some? {
        SaveThenReopen(old(store.user).value, formData);
      }
    }

    /** `handleAvatarChange`, with the clock reading passed in as the seed. */
    method HandleAvatarChange(seed: string)
      modifies store
      ensures store.Snapshot() == Updated(old(store.Snapshot()), AvatarPatch(AvatarUrl(seed)))
    {
      store.UpdateProfile(AvatarPatch(AvatarUrl(seed)));
    }
  }
}
