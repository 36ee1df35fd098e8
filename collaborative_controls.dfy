/**
 * The "someone is editing this" wrapper around a page section
 * (WebInterface/src/components/collaboration/CollaborativeControls.jsx):
 * which collaborators count as editing the section, whether it is
 * highlighted, and the badge text.
 */
module CollaborativeControls {
  import opened Text
  import opened Seqs
  import opened ProjectsPage

  /** `c.current_view === currentSection && c.status === 'active'`; the viewer is not excluded. */
  function EditingIn(section: string): (editing: Collaborator -> bool)
    ensures forall c :: editing(c) <==> c.currentView == section && c.status == "active"
    ensures forall c: Collaborator, email: string :: editing(c.(userEmail := email)) == editing(c)
  {
    (c: Collaborator) => c.currentView == section && c.status == "active"
  }

  /** The active editors of a section: exactly the active collaborators whose view is that section. */
  function ActiveEditors(collaborators: seq<Collaborator>, section: string): (editors: seq<Collaborator>)
    ensures forall i :: 0 <= i < |editors| ==>
      editors[i] in collaborators && editors[i].currentView == section && editors[i].status == "active"
    ensures forall i :: 0 <= i < |collaborators| ==>
      (collaborators[i].currentView == section && collaborators[i].status == "active" ==> collaborators[i] in editors)
  {
    Filter(collaborators, EditingIn(section))
  }

  /** `hasOtherEditors`: the section is ringed iff someone is actively in it. */
  function Highlighted(collaborators: seq<Collaborator>, section: string): (b: bool)
    ensures b <==> exists i :: (0 <= i < |collaborators|
      && collaborators[i].currentView == section && collaborators[i].status == "active")
  {
    var editors := ActiveEditors(collaborators, section);
    if |editors| > 0 then
      assert editors[0] in collaborators;
      true
    else false
  }

  /** The badge: the one editor's name, else "N users", then " editing". */
  function BadgeLabel(editors: seq<Collaborator>): (badge: string)
    ensures EndsWith(badge, " editing")
    ensures |editors| == 1 ==> badge == editors[0].userName + " editing"
    ensures |editors| != 1 ==> badge == Decimal(|editors|) + " users editing"
  {
    (if |editors| == 1 then editors[0].userName else Decimal(|editors|) + " users") + " editing"
  }

  /** The viewer's own active record in the section counts as an editor too. */
  lemma ViewerCounted(collaborators: seq<Collaborator>, section: string, me: Collaborator)
    requires me in collaborators && me.currentView == section && me.status == "active"
    ensures me in ActiveEditors(collaborators, section)
    ensures Highlighted(collaborators, section)
  {
    var i :| 0 <= i < |collaborators| && collaborators[i] == me;
  }
}
