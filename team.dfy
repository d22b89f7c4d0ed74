/** The team roster screen: adding a collaborator from the form and removing one. */
module Team {
  import opened Seqs
  import opened Types

  /** `team.filter(m => m.id !== id)`. */
  function WithoutCollaborator(team: seq<Collaborator>, id: string): seq<Collaborator>
  {
    Filter(team, NotCollaborator(id))
  }

  function NotCollaborator(id: string): Collaborator -> bool
  {
    (m: Collaborator) => m.id != id
  }

  /** Removal drops exactly the members with that id: no member with it is left,
      every other member stays, and the survivors keep their order (removal
      distributes over any split of the roster). */
  lemma {:induction false} WithoutCollaboratorSpec(team: seq<Collaborator>, id: string, front: seq<Collaborator>, back: seq<Collaborator>)
    requires team == front + back
    ensures forall i :: 0 <= i < |WithoutCollaborator(team, id)| ==> WithoutCollaborator(team, id)[i].id != id
    ensures forall i :: 0 <= i < |team| && team[i].id != id ==> team[i] in WithoutCollaborator(team, id)
    ensures WithoutCollaborator(team, id) == WithoutCollaborator(front, id) + WithoutCollaborator(back, id)
  {
    FilterConcat(front, back, NotCollaborator(id));
  }

  /** The roster and the form fields of the component. */
  class TeamManager {
    var team: seq<Collaborator>
    var newName: string
    var newRole: Role
    var startDate: string
    var endDate: string

    /** A fresh form: role `SERVENTE`, start date `today`, no name, no end date. */
    constructor (team: seq<Collaborator>, today: string)
      ensures this.team == team
      ensures newName == "" && newRole == Servente && startDate == today && endDate == ""
    {
      this.team := team;
      newName := "";
      newRole := Servente;
      startDate := today;
      endDate := "";
    }

    /** `addCollaborator`: nothing happens for a blank name; otherwise the new member
        goes at the end, with an empty end date stored as absent, and the name and
        end date fields are cleared. */
    method AddCollaborator(freshId: string)
      modifies this
      ensures IsBlank(old(newName)) ==>
        team == old(team) && newName == old(newName) && endDate == old(endDate)
      ensures !IsBlank(old(newName)) ==>
        && team == old(team) + [Collaborator(freshId, old(newName), old(newRole), old(startDate),
                                         if old(endDate) == "" then None else Some(old(endDate)))]
        && newName == "" && endDate == ""
      ensures newRole == old(newRole) && startDate == old(startDate)
    {
      if IsBlank(newName) {
        return;
      }
      var member := Collaborator(freshId, newName, newRole, startDate,
                                 if endDate == "" then None else Some(endDate));
      team := team + [member];
      newName := "";
      endDate := "";
    }

    /** `removeCollaborator`: only the roster changes; daily logs that name the
        member keep naming it. */
    method RemoveCollaborator(id: string)
      modifies this`team
      ensures team == WithoutCollaborator(old(team), id)
      ensures |team| <= |old(team)|
    {
      team := WithoutCollaborator(team, id);
    }
  }
}
