/** The account preferences (components/settings/account-settings.tsx): three
    switches initialised from the profile with `??` defaults, each writing
    its own field, and save and delete-account handlers whose backend parts
    are stubs. */
module AccountSettings {
  import opened Common
  import opened Backend

  /** The profile's stored preferences, each possibly missing. */
  datatype Profile = Profile(emailNotifications: Option<bool>, marketingEmails: Option<bool>, dataSharing: Option<bool>)

  /** The `settings` state record. */
  datatype Settings = Settings(emailNotifications: bool, marketingEmails: bool, dataSharing: bool)

  const SavedToast := Toast("Settings saved", "Your account settings have been updated.", false)
  const DeletionToast := Toast("Account deletion requested", "Your account deletion request has been submitted.", false)

  /** The initial record: a stored value wins, including an explicit false;
      a missing one falls back to email notifications on and the other two
      off. */
  function InitialSettings(profile: Option<Profile>): (s: Settings)
    ensures profile.Some? && profile.value.emailNotifications.Some? ==> s.emailNotifications == profile.value.emailNotifications.value
    ensures profile.Some? && profile.value.marketingEmails.Some? ==> s.marketingEmails == profile.value.marketingEmails.value
    ensures profile.Some? && profile.value.dataSharing.Some? ==> s.dataSharing == profile.value.dataSharing.value
    ensures (profile.None? || profile.value.emailNotifications.None?) ==> s.emailNotifications
    ensures (profile.None? || profile.value.marketingEmails.None?) ==> !s.marketingEmails
    ensures (profile.None? || profile.value.dataSharing.None?) ==> !s.dataSharing
  {
    if profile.None? then Settings(true, false, false)
    else
      var p := profile.value;
      Settings(
        if p.emailNotifications.Some? then p.emailNotifications.value else true,
        if p.marketingEmails.Some? then p.marketingEmails.value else false,
        if p.dataSharing.Some? then p.dataSharing.value else false)
  }

  /** The three switches. */
  datatype Switch = EmailNotificationsSwitch | MarketingEmailsSwitch | DataSharingSwitch

  function Get(s: Settings, sw: Switch): bool {
    match sw
    case EmailNotificationsSwitch => s.emailNotifications
    case MarketingEmailsSwitch => s.marketingEmails
    case DataSharingSwitch => s.dataSharing
  }

  /** `setSettings({ ...settings, field: checked })`: the switch's field takes
      the new value, the other two keep theirs. */
  function Flip(s: Settings, sw: Switch, checked: bool): (t: Settings)
    ensures Get(t, sw) == checked
    ensures forall other :: other != sw ==> Get(t, other) == Get(s, other)
  {
    match sw
    case EmailNotificationsSwitch => s.(emailNotifications := checked)
    case MarketingEmailsSwitch => s.(marketingEmails := checked)
    case DataSharingSwitch => s.(dataSharing := checked)
  }

  /** Switches on different fields commute. */
  lemma FlipsCommute(s: Settings, a: Switch, b: Switch, x: bool, y: bool)
    requires a != b
    ensures Flip(Flip(s, a, x), b, y) == Flip(Flip(s, b, y), a, x)
  {
  }

  class AccountPanel {
    var isLoading: bool
    var settings: Settings
    var toasts: seq<Toast>

    constructor (profile: Option<Profile>)
      ensures !isLoading && settings == InitialSettings(profile) && toasts == []
    {
      isLoading, toasts := false, [];
      settings := InitialSettings(profile);
    }

    method OnCheckedChange(sw: Switch, checked: bool)
      modifies this
      ensures settings == Flip(old(settings), sw, checked)
      ensures isLoading == old(isLoading) && toasts == old(toasts)
    {
      settings := Flip(settings, sw, checked);
    }

    /** `handleSaveSettings`: the settings are left as they are. */
    method HandleSaveSettings()
      modifies this
      ensures settings == old(settings) && !isLoading
      ensures toasts == old(toasts) + [SavedToast]
    {
      isLoading := true;
      toasts := toasts + [SavedToast];
      isLoading := false;
    }

    /** `handleDeleteAccount`: only the confirmation toast. */
    method HandleDeleteAccount()
      modifies this
      ensures settings == old(settings) && isLoading == old(isLoading)
      ensures toasts == old(toasts) + [DeletionToast]
    {
      toasts := toasts + [DeletionToast];
    }
  }
}
