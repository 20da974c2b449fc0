/** The information entered for one portfolio: a user and an ordered,
    append-only list of project names. */
module Forms {
  import opened Users

  class Form {
    var user: User
    /** The project list, in the order the projects were added. */
    var projects: seq<string>

    /** A new form holds the given user and no projects. */
    constructor (user: User)
      ensures this.user == user
      ensures projects == []
    {
      this.user := user;
      projects := [];
    }

    /** Returns the form's user and changes nothing. */
    method GetUser() returns (u: User)
      ensures u == user
    {
      u := user;
    }

    /** Returns the project list and changes nothing. */
    method GetProjects() returns (ps: seq<string>)
      ensures ps == projects
    {
      ps := projects;
    }

    /** Appends one project at the end; earlier projects and the user stay
        as they were. Duplicates and empty names are accepted. */
    method AddProject(project: string)
      modifies this
      ensures user == old(user)
      ensures projects == old(projects) + [project]
    {
      projects := projects + [project];
    }
  }
}
