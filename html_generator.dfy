/** The HTML serialiser: a fixed prefix, the four user fields as `<p>`
    elements, one `<li>` element per project in list order, and a fixed
    suffix. No escaping is applied: fields and projects are copied
    verbatim, markup included. */
module HtmlGenerator {
  import opened Users

  const Prefix := "<html><body><h1>Portfolio</h1>"
  const ProjectsHeading := "<h2>Projects:</h2><ul>"
  const Suffix := "</ul></body></html>"

  /** Characters every project adds besides its own: `<li>` and `</li>`. */
  const ItemOverhead := 9
  /** Characters of the fixed text before the first project. */
  const HeadOverhead := 116
  /** Characters of all the fixed text of a document. */
  const FixedLength := 135

  /** Everything before the first project: prefix, the four fields in a
      fixed order, and the opening of the project list. */
  function Head(u: User): string
  {
    Prefix
    + "<p>Name: " + u.name + "</p>"
    + "<p>Email: " + u.email + "</p>"
    + "<p>Phone Number: " + u.phoneNumber + "</p>"
    + "<p>Address: " + u.address + "</p>"
    + ProjectsHeading
  }

  /** The list item for one project. */
  function Item(project: string): string
  {
    "<li>" + project + "</li>"
  }

  /** The list items for a project list, in list order; defined by its last
      project, as the generator appends one item after the other. */
  function Items(projects: seq<string>): string
  {
    if projects == [] then "" else Items(projects[..|projects| - 1]) + Item(projects[|projects| - 1])
  }

  /** The document generated for a user and a project list. */
  function Html(u: User, projects: seq<string>): string
  {
    Head(u) + Items(projects) + Suffix
  }

  /** Total characters the projects contribute: each one its own length plus
      the item markup. */
  function ProjectsLength(projects: seq<string>): nat
  {
    if projects == [] then 0 else |projects[0]| + ItemOverhead + ProjectsLength(projects[1..])
  }

  /** Builds the document step by step, as a string builder would. The
      template argument is never read: the result is the same document
      for every `templateHtml`. */
  method GenerateHtml(user: User, projects: seq<string>, templateHtml: string) returns (html: string)
    ensures html == Html(user, projects)
  {
    html := Prefix;
    html := html + "<p>Name: " + user.name + "</p>";
    html := html + "<p>Email: " + user.email + "</p>";
    html := html + "<p>Phone Number: " + user.phoneNumber + "</p>";
    html := html + "<p>Address: " + user.address + "</p>";
    html := html + ProjectsHeading;
    for i := 0 to |projects|
      invariant html == Head(user) + Items(projects[..i])
    {
      assert projects[..i + 1][..i] == projects[..i];
      html := html + "<li>" + projects[i] + "</li>";
    }
    assert projects[..|projects|] == projects;
    html := html + Suffix;
  }

  /** Rendering a concatenation of project lists renders each in turn. */
  lemma {:induction false} ItemsConcat(a: seq<string>, b: seq<string>)
    ensures Items(a + b) == Items(a) + Items(b)
    decreases |b|
  {
    if b == [] {
      assert a + b == a;
    } else {
      var front := b[..|b| - 1];
      assert (a + b)[..|a + b| - 1] == a + front;
      assert (a + b)[|a + b| - 1] == b[|b| - 1];
      ItemsConcat(a, front);
    }
  }

  /** The list items take exactly `ProjectsLength` characters. */
  lemma {:induction false} ItemsLength(projects: seq<string>)
    ensures |Items(projects)| == ProjectsLength(projects)
    decreases |projects|
  {
    if projects != [] {
      var first := [projects[0]];
      assert first[..0] == [];
      assert first + projects[1..] == projects;
      ItemsConcat(first, projects[1..]);
      ItemsLength(projects[1..]);
    }
  }

  /** `ProjectsLength` adds up over a concatenation. */
  lemma ProjectsLengthConcat(a: seq<string>, b: seq<string>)
    ensures ProjectsLength(a + b) == ProjectsLength(a) + ProjectsLength(b)
  {
    ItemsConcat(a, b);
    ItemsLength(a + b);
    ItemsLength(a);
    ItemsLength(b);
  }

  /** Length formula: a fixed number of characters, plus the four fields,
      plus, for every project, its length and 9. */
  lemma LengthFormula(u: User, projects: seq<string>)
    ensures |Html(u, projects)|
         == FixedLength + |u.name| + |u.email| + |u.phoneNumber| + |u.address| + ProjectsLength(projects)
  {
    ItemsLength(projects);
  }

  /** The name sits right after `<p>Name: `, 39 characters in. */
  lemma NameInHead(u: User, rest: string)
    ensures |Head(u) + rest| >= 39 + |u.name|
    ensures (Head(u) + rest)[39 .. 39 + |u.name|] == u.name
  {
  }

  /** The email follows the name line and `<p>Email: `. */
  lemma EmailInHead(u: User, rest: string)
    ensures |Head(u) + rest| >= 53 + |u.name| + |u.email|
    ensures (Head(u) + rest)[53 + |u.name| .. 53 + |u.name| + |u.email|] == u.email
  {
  }

  /** The phone number follows the email line and `<p>Phone Number: `. */
  lemma PhoneNumberInHead(u: User, rest: string)
    ensures var n, e, p := |u.name|, |u.email|, |u.phoneNumber|;
      |Head(u) + rest| >= 74 + n + e + p && (Head(u) + rest)[74 + n + e .. 74 + n + e + p] == u.phoneNumber
  {
  }

  /** The address follows the phone line and `<p>Address: `. */
  lemma AddressInHead(u: User, rest: string)
    ensures var n, e, p, a := |u.name|, |u.email|, |u.phoneNumber|, |u.address|;
      |Head(u) + rest| >= 90 + n + e + p + a && (Head(u) + rest)[90 + n + e + p .. 90 + n + e + p + a] == u.address
  {
  }

  /** The four fields appear verbatim, in the order name, email, phone
      number, address, at offsets fixed by the lengths of the fields
      before them. */
  lemma UserFieldsVerbatim(u: User, projects: seq<string>)
    ensures var html, n, e, p := Html(u, projects), |u.name|, |u.email|, |u.phoneNumber|;
      && |html| >= 90 + n + e + p + |u.address|
      && html[39 .. 39 + n] == u.name
      && html[53 + n .. 53 + n + e] == u.email
      && html[74 + n + e .. 74 + n + e + p] == u.phoneNumber
      && html[90 + n + e + p .. 90 + n + e + p + |u.address|] == u.address
  {
    var rest := Items(projects) + Suffix;
    assert Html(u, projects) == Head(u) + rest;
    NameInHead(u, rest);
    EmailInHead(u, rest);
    PhoneNumberInHead(u, rest);
    AddressInHead(u, rest);
  }

  /** Where project `i` starts in the document: after the fixed head, the
      four fields and the projects before it. */
  function ItemOffset(u: User, projects: seq<string>, i: nat): nat
    requires i <= |projects|
  {
    HeadOverhead + |u.name| + |u.email| + |u.phoneNumber| + |u.address| + ProjectsLength(projects[..i])
  }

  /** Every project is rendered, verbatim inside `<li>`…`</li>`, at its
      offset; together with `ItemsInOrder` this says the items appear in
      list order. */
  lemma ProjectRenderedAt(u: User, projects: seq<string>, i: nat)
    requires i < |projects|
    ensures ItemOffset(u, projects, i) + |projects[i]| + ItemOverhead <= |Html(u, projects)|
    ensures Html(u, projects)[ItemOffset(u, projects, i) .. ItemOffset(u, projects, i) + |projects[i]| + ItemOverhead]
         == Item(projects[i])
  {
    var before, after := projects[..i], projects[i + 1..];
    assert projects == before + [projects[i]] + after;
    ItemsConcat(before + [projects[i]], after);
    ItemsConcat(before, [projects[i]]);
    assert [projects[i]][..0] == [];
    assert Items([projects[i]]) == Item(projects[i]);
    ItemsLength(before);
    assert |Head(u)| == HeadOverhead + |u.name| + |u.email| + |u.phoneNumber| + |u.address|;
    var html := Html(u, projects);
    assert html == Head(u) + Items(before) + Item(projects[i]) + (Items(after) + Suffix);
  }

  /** Items of earlier projects end before items of later projects begin. */
  lemma ItemsInOrder(u: User, projects: seq<string>, i: nat, j: nat)
    requires i < j < |projects|
    ensures ItemOffset(u, projects, i) + |projects[i]| + ItemOverhead <= ItemOffset(u, projects, j)
  {
    assert projects[..j] == projects[..i] + [projects[i]] + projects[i + 1..j];
    ProjectsLengthConcat(projects[..i] + [projects[i]], projects[i + 1..j]);
    ProjectsLengthConcat(projects[..i], [projects[i]]);
  }

  /** An empty project list renders as an empty `<ul></ul>`: the document
      is the head followed by the suffix and ends in `<ul></ul></body></html>`. */
  lemma EmptyProjectList(u: User)
    ensures Html(u, []) == Head(u) + Suffix
    ensures |Html(u, [])| >= 23
    ensures Html(u, [])[|Html(u, [])| - 23..] == "<ul></ul></body></html>"
  {
  }

  /** Append law: adding a project inserts its item immediately before the
      suffix, and leaves everything before it unchanged. */
  lemma AppendLaw(u: User, projects: seq<string>, project: string)
    ensures |Html(u, projects)| >= |Suffix|
    ensures Html(u, projects)[|Html(u, projects)| - |Suffix|..] == Suffix
    ensures Html(u, projects + [project])
         == Html(u, projects)[..|Html(u, projects)| - |Suffix|] + Item(project) + Suffix
  {
  }
}
