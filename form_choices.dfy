/** The choices the two browser forms offer, and how they meet the routing
    tables: every choice the forms can submit is a key of its table, so the
    fallback addresses are only reached by requests the forms do not make. */
module FormChoices {
  import opened Js
  import opened Mail
  import ContactRoute
  import ApplicationRoute

  /** The contact form's location and job-type selections. */
  const ContactLocations := ["Philadelphia", "Bucks", "Delaware", "Montgomery"]
  const ContactJobTypes := ["Employment (HR)", "Services (Case Management)", "Other (office)"]

  /** The application form's office selections. */
  const ApplicationLocations := ["Bala Cynwyd Office", "Philadelphia Office"]

  /** The contact form offers exactly the table's locations and, for each,
      exactly its job types; so for every pair it can submit the recipient is
      the table entry, whatever FALLBACK_EMAIL holds. */
  lemma ContactChoicesAreTableKeys(env: Env)
    ensures ContactRoute.EmailMap.Keys == set l | l in ContactLocations
    ensures forall l :: l in ContactRoute.EmailMap ==> ContactRoute.EmailMap[l].Keys == set j | j in ContactJobTypes
    ensures forall l, j :: l in ContactLocations && j in ContactJobTypes ==>
              ContactRoute.InTable(l, j) && ContactRoute.ResolveRecipient(l, j, env) == ContactRoute.EmailMap[l][j]
  {
  }

  /** Every office the application form offers is a key of the office table
      (the table has a third office the form does not offer), so its
      recipient is the table entry, never the default by fallback. */
  lemma ApplicationChoicesAreTableKeys()
    ensures (set l | l in ApplicationLocations) < ApplicationRoute.LocationEmails.Keys
    ensures forall l :: l in ApplicationLocations ==>
              ApplicationRoute.ResolveOffice(l) == ApplicationRoute.LocationEmails[l]
  {
    var offered := set l | l in ApplicationLocations;
    assert offered == {"Bala Cynwyd Office", "Philadelphia Office"};
    assert "South Philadelphia Satellite Office" in ApplicationRoute.LocationEmails.Keys - offered;
  }

  /** The contact form sends name as first name, a space, and last name, so
      the name check never fails for a request the form makes. */
  lemma FormNameIsNeverEmpty(firstName: string, lastName: string)
    ensures Truthy(Some(firstName + " " + lastName))
  {
    assert (firstName + " " + lastName)[|firstName|] == ' ';
  }
}
