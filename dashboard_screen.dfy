// EcoScope/app/src/main/java/com/himanshu/ecoscope/ui/screens/HomeScreen.kt:
// the dashboard's welcome name, its saved-contacts list and its SOS button.
// `PrefsManager.saveContacts` is the field `persisted`; the profile read is
// the parameters `uid` and `firstName`; the view-model's `sendSOS` is not
// part of this model, so the button's outcome is the list it would be given.

module DashboardScreen {
  import opened Wrappers
  import opened Strings
  import opened ContactList

  /** What a press of the SOS image does. */
  datatype SosPress = NoContact(toast: string) | Triggered(toast: string, numbers: seq<string>)

  const NoContactToast := "⚠️ No valid contact selected"
  const TriggeredToast := "\U{1F6A8} SOS Triggered"

  /**
   * The contact the SOS goes to: the first saved contact in saved mode, the
   * typed number (named "Unknown" when the name is blank) in custom mode.
   */
  function SosTarget(useSavedContact: bool, saved: seq<ContactData>, customName: string,
                     customNumber: string): (t: Option<ContactData>)
    ensures useSavedContact ==> (t.Some? <==> saved != []) && (t.Some? ==> t.value == saved[0])
    ensures !useSavedContact ==> (t.Some? <==> !IsBlank(customNumber))
    ensures !useSavedContact && t.Some? ==>
      t.value.number == customNumber && t.value.name == (if IsBlank(customName) then "Unknown" else customName)
  {
    if useSavedContact && saved != [] then Some(saved[0])
    else if !useSavedContact && !IsBlank(customNumber) then
      Some(ContactData(if IsBlank(customName) then "Unknown" else customName, customNumber))
    else None
  }

  /** Without a target only a toast; with one, `sendSOS` gets exactly its number. */
  function OnSos(useSavedContact: bool, saved: seq<ContactData>, customName: string,
                 customNumber: string): (p: SosPress)
    ensures p.NoContact? <==> SosTarget(useSavedContact, saved, customName, customNumber).None?
    ensures p.NoContact? ==> p.toast == NoContactToast
    ensures p.Triggered? ==>
      p.toast == TriggeredToast && p.numbers == [SosTarget(useSavedContact, saved, customName, customNumber).value.number]
  {
    match SosTarget(useSavedContact, saved, customName, customNumber)
    case None => NoContact(NoContactToast)
    case Some(c) => Triggered(TriggeredToast, [c.number])
  }

  /** In custom mode, the saved list plays no part. */
  lemma CustomModeIgnoresSaved(saved1: seq<ContactData>, saved2: seq<ContactData>, customName: string,
                               customNumber: string)
    ensures OnSos(false, saved1, customName, customNumber) == OnSos(false, saved2, customName, customNumber)
  {
  }

  /** `doc.getString("firstName") ?: "User"`. */
  function WelcomeName(firstName: Option<string>): (name: string)
    ensures firstName.Some? ==> name == firstName.value
    ensures firstName.None? ==> name == "User"
  {
    firstName.GetOr("User")
  }

  class Dashboard {
    var userFirstName: string
    var savedContacts: seq<ContactData>
    /** The list last written with `PrefsManager.saveContacts`. */
    var persisted: seq<string>
    /** The mode and the custom fields: initialised and never assigned by the screen. */
    const useSavedContact: bool := true
    const customName: string := ""
    const customNumber: string := ""

    constructor (persisted0: seq<string>)
      ensures userFirstName == "User" && savedContacts == [] && persisted == persisted0
      ensures AddButtonShown()
    {
      userFirstName, savedContacts, persisted := "User", [], persisted0;
    }

    /** The launched profile read: without a signed-in user the name stays. */
    method LoadFirstName(uid: Option<string>, firstName: Option<string>)
      modifies this`userFirstName
      ensures uid.None? ==> userFirstName == old(userFirstName)
      ensures uid.Some? ==> userFirstName == WelcomeName(firstName)
    {
      if uid.Some? {
        userFirstName := WelcomeName(firstName);
      }
    }

    /** The delete icon: the contact goes, the rest is persisted in order. */
    method Delete(contact: ContactData)
      modifies this`savedContacts, this`persisted
      ensures savedContacts == RemoveFirst(old(savedContacts), contact)
      ensures persisted == Formatted(savedContacts)
      ensures |savedContacts| <= |old(savedContacts)|
      ensures old(savedContacts) == [contact] ==> AddButtonShown()
      ensures |old(savedContacts)| >= 2 ==> !AddButtonShown()
    {
      RemoveFirstContents(savedContacts, contact);
      savedContacts := RemoveFirst(savedContacts, contact);
      persisted := Formatted(savedContacts);
    }

    /** The picker's result callback is empty: a pick changes nothing. */
    method OnPicked(picked: Option<ContactData>)
      ensures unchanged(this)
    {
    }

    /** "Add Contact" is offered only while the list is empty (`size < 1`). */
    function AddButtonShown(): (shown: bool)
      reads this
      ensures shown <==> savedContacts == []
    {
      |savedContacts| < 1
    }

    method PressSos() returns (p: SosPress)
      ensures p == OnSos(useSavedContact, savedContacts, customName, customNumber)
      ensures savedContacts == [] ==> p == NoContact(NoContactToast)
    {
      p := OnSos(useSavedContact, savedContacts, customName, customNumber);
    }
  }
}
