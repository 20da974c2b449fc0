# Portfolio generator — Dafny model

A model of the console portfolio generator in `Main.java`: a `User` record
of four strings, a `Form` holding that user and an append-only list of
project names, the `HTMLGenerator` that serialises both into one fixed
HTML document, the `PortfolioWebsite` that hands the form to the
generator, and the two decisions the program's `main` makes on its input
(which template file to read, and which tokens are projects).

Modules, one per part of the source:

- `Users` (`user.dfy`): the `User` datatype; its destructors are the getters.
- `Forms` (`form.dfy`): the `Form` class, whose `projects` field is a
  `seq<string>` that `AddProject` extends in place.
- `HtmlGenerator` (`html_generator.dfy`): the specification function `Html`,
  the method `GenerateHtml` that builds the document with a loop and is
  proved equal to `Html`, and the lemmas about `Html`: field positions,
  project positions and order, the length formula, the empty list and the
  append law.
- `Website` (`portfolio_website.dfy`): the `PortfolioWebsite` class.
- `PortfolioMain` (`main_flow.dfy`): the template-file choice, the
  case-insensitive `done` test, the project collection as a function over a
  token sequence and as the reading loop, and the whole generation from
  already-read inputs.

The document for user `u` and projects `ps` is the fixed prefix
`<html><body><h1>Portfolio</h1>`, the four `<p>` lines
`Name`, `Email`, `Phone Number` and `Address`, the heading
`<h2>Projects:</h2><ul>`, one `<li>p</li>` for each project in list
order, and `</ul></body></html>`. The template text passed to the
generator is never read, and no character is escaped.

The template choice only selects a file name
whose contents the generator then ignores.

## Model

| member | source | states |
|---|---|---|
| `Users.GettersReturnArguments` | Main.java:11-39 | each getter returns the constructor argument unchanged, and a user is equal to another exactly when all four getters agree |
| `Forms.Form.constructor` | Main.java:46-49 | a new form holds the given user and an empty project list |
| `Forms.Form.GetUser` | Main.java:51-53 | returns the form's user and modifies nothing |
| `Forms.Form.AddProject` | Main.java:55-57 | the project list becomes the old list with the project appended at the end; the user is unchanged |
| `Forms.Form.GetProjects` | Main.java:59-61 | returns the current project list and modifies nothing |
| `HtmlGenerator.GenerateHtml` | Main.java:66-78 | the string-builder loop yields exactly `Html(user, projects)`: prefix, four fields in order, one item per project in order, suffix; the result is the same for every template argument |
| `HtmlGenerator.ItemsConcat` | Main.java:74-76 | rendering the concatenation of two project lists is the rendering of the first followed by that of the second |
| `HtmlGenerator.ItemsLength` | Main.java:74-76 | the project items take, for every project, its length plus 9 characters |
| `HtmlGenerator.ProjectsLengthConcat` | Main.java:74-76 | the project contribution to the length adds up over concatenated project lists |
| `HtmlGenerator.LengthFormula` | Main.java:67-78 | the document length is 135 plus the lengths of the four user fields plus, per project, its length plus 9 |
| `HtmlGenerator.NameInHead` | Main.java:68-69 | the name is copied verbatim 39 characters into the document |
| `HtmlGenerator.EmailInHead` | Main.java:70 | the email is copied verbatim right after the name line and `<p>Email: ` |
| `HtmlGenerator.PhoneNumberInHead` | Main.java:71 | the phone number is copied verbatim right after the email line and `<p>Phone Number: ` |
| `HtmlGenerator.AddressInHead` | Main.java:72 | the address is copied verbatim right after the phone line and `<p>Address: ` |
| `HtmlGenerator.UserFieldsVerbatim` | Main.java:68-73 | in every document the four fields appear unescaped, in the order name, email, phone number, address, at offsets fixed by the preceding field lengths |
| `HtmlGenerator.ProjectRenderedAt` | Main.java:73-76 | every project `i` appears verbatim as `<li>…</li>` at the offset given by the fields and the projects before it |
| `HtmlGenerator.ItemsInOrder` | Main.java:74-76 | the item of an earlier project ends before the item of a later project begins |
| `HtmlGenerator.EmptyProjectList` | Main.java:73-77 | with no projects the document is the head followed by the suffix and ends in `<ul></ul></body></html>`; rendering does not fail |
| `HtmlGenerator.AppendLaw` | Main.java:74-77 | every document ends in `</ul></body></html>`, and appending a project inserts its item immediately before that suffix, leaving the rest unchanged |
| `Website.PortfolioWebsite.constructor` | Main.java:87-90 | the website holds the given form |
| `Website.PortfolioWebsite.GeneratePortfolio` | Main.java:92-96 | returns the document for the form's current user and projects, whatever the template argument; it modifies nothing, so the form is unchanged |
| `PortfolioMain.TemplateFileName` | Main.java:134 | the basic template file is chosen exactly when the choice is 1, the detailed one exactly otherwise |
| `PortfolioMain.DoneExactly` | Main.java:162 | a token ends the list exactly when it has four characters spelling `d`, `o`, `n`, `e` each in either case: the sixteen spellings of `done` and nothing else |
| `PortfolioMain.DoneSpellings` | Main.java:162 | examples: `done`, `DONE`, `Done` and `dOnE` end the list; `don`, `done.`, ` done`, `dona` and the empty token do not |
| `PortfolioMain.TakeUntilDone` | Main.java:160-165 | the collected projects are a prefix of the tokens, contain no `done`, and stop at the first `done` or at the end of the tokens |
| `PortfolioMain.TakeUntilDoneUnique` | Main.java:160-165 | those three properties determine the collected list uniquely |
| `PortfolioMain.NothingAfterDone` | Main.java:161-165 | no token after the first `done` is ever collected, whatever follows it |
| `PortfolioMain.GetFormInput` | Main.java:155-168 | the reading loop returns a new form for the user whose projects are exactly the tokens before the first `done`; it returns no form exactly when the tokens run out before a `done` |
| `PortfolioMain.GeneratePortfolioFromInput` | Main.java:119-135 | the generated document is `Html(user, TakeUntilDone(tokens))` for every template choice and every template content; there is none exactly when the tokens contain no `done` |

## Left out

- Console interaction (`Scanner` prompts, `getUserInput`, `nextInt`, the
  `System.out` messages, Main.java:112-119, 141-153): the user and the
  project tokens are parameters. How `Scanner.next` splits input into
  whitespace-free tokens is not modelled; any strings are accepted.
- A template choice that is not a 32-bit integer (an input-mismatch failure
  of `nextInt`, for non-numeric or out-of-range input) is console behaviour
  and is not modelled; the choice is an unbounded `int`, which admits
  values Java cannot read but is otherwise faithful because it is only
  compared with 1.
- `readTemplate` (Main.java:170-181) is file input: it is the function
  parameter `readTemplate` of `GeneratePortfolioFromInput`, and its result
  is never used by the generator.
- `savePortfolioAsHTML` (Main.java:98-107) is file output with console
  messages; not modelled.
- The reading loop's exception when input ends before `done`
  (`NoSuchElementException` from `Scanner.next`) is modelled as the `None`
  result; the program's termination with a stack trace is not.
- `PortfolioWebsite`'s `htmlGenerator` field: `HTMLGenerator` has no state,
  so its method is the module-level method `GenerateHtml` and the field is
  not kept.
- `Forms.Form.GetProjects` returns the list's value; Java returns the live
  `ArrayList`, through which a caller could change the form (aliasing).
  No caller in the program does.
- `PortfolioMain.IsDone` folds ASCII letters only; Java's
  `equalsIgnoreCase` also folds non-ASCII characters.
- Lengths and offsets in `HtmlGenerator`'s lemmas (`LengthFormula`,
  `NameInHead` to `AddressInHead`, `UserFieldsVerbatim`, `ItemOffset`,
  `ProjectRenderedAt`, `ItemsInOrder`) count Dafny characters (Unicode
  scalar values); Java counts UTF-16 code units, which differ for characters
  outside the Basic Multilingual Plane.
- `User` is a value: two users with equal fields are equal. Java's `User`
  does not override `equals`, so Java compares users by reference; nothing
  in the program compares users.
