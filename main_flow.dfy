/** The program's own decisions, with console and file access replaced by
    parameters: which template file is chosen, how the project tokens are
    collected until `done`, and the whole generation from those inputs. */
module PortfolioMain {
  import opened Users
  import opened Forms
  import opened HtmlGenerator
  import opened Website

  datatype Option<T> = None | Some(value: T)

  const BasicTemplateFile := "basic_portfolio_template.html"
  const DetailedTemplateFile := "detailed_portfolio_template.html"

  /** Choice 1 selects the basic template file; every other number,
      including out-of-menu ones, selects the detailed one. */
  function TemplateFileName(templateChoice: int): (fileName: string)
    ensures fileName == BasicTemplateFile <==> templateChoice == 1
    ensures fileName == DetailedTemplateFile <==> templateChoice != 1
  {
    if templateChoice == 1 then BasicTemplateFile else DetailedTemplateFile
  }

  /** Lower-cases the ASCII letters A to Z and leaves every other character. */
  function AsciiLower(c: char): char
  {
    if 'A' <= c <= 'Z' then (c as int - 'A' as int + 'a' as int) as char else c
  }

  /** Equality of two strings up to the case of ASCII letters. */
  predicate EqualsIgnoreAsciiCase(a: string, b: string)
  {
    |a| == |b| && forall i :: 0 <= i < |a| ==> AsciiLower(a[i]) == AsciiLower(b[i])
  }

  /** The token that ends the project list. */
  predicate IsDone(token: string)
  {
    EqualsIgnoreAsciiCase(token, "done")
  }

  /** A token ends the list exactly when it is one of the sixteen letter-case
      spellings of `done`. */
  lemma DoneExactly(token: string)
    ensures IsDone(token) <==>
      && |token| == 4
      && token[0] in "dD" && token[1] in "oO" && token[2] in "nN" && token[3] in "eE"
  {
  }

  /** Examples: mixes of cases of `done` end the list; a token that only contains
      `done`, or differs in one letter, does not. */
  lemma DoneSpellings()
    ensures IsDone("done") && IsDone("DONE") && IsDone("Done") && IsDone("dOnE")
    ensures !IsDone("don") && !IsDone("done.") && !IsDone(" done") && !IsDone("dona") && !IsDone("")
  {
    assert AsciiLower("dona"[3]) != AsciiLower("done"[3]);
    assert AsciiLower(" done"[0]) != AsciiLower("done"[0]);
  }

  /** The projects collected from a token stream: the tokens before the
      first `done` (ignoring ASCII case), in their order; all of them when
      no `done` occurs. */
  function TakeUntilDone(tokens: seq<string>): (projects: seq<string>)
    ensures projects <= tokens
    ensures forall j :: 0 <= j < |projects| ==> !IsDone(projects[j])
    ensures |projects| < |tokens| ==> IsDone(tokens[|projects|])
  {
    if tokens == [] || IsDone(tokens[0]) then [] else [tokens[0]] + TakeUntilDone(tokens[1..])
  }

  /** The three properties in `TakeUntilDone`'s contract determine its
      result: any prefix with no `done` in it that stops at a `done` or at
      the end is that result. */
  lemma TakeUntilDoneUnique(tokens: seq<string>, projects: seq<string>)
    requires projects <= tokens
    requires forall j :: 0 <= j < |projects| ==> !IsDone(projects[j])
    requires |projects| < |tokens| ==> IsDone(tokens[|projects|])
    ensures projects == TakeUntilDone(tokens)
  {
  }

  /** No token after the first `done` is collected, whatever follows it. */
  lemma {:induction false} NothingAfterDone(before: seq<string>, done: string, after: seq<string>)
    requires forall j :: 0 <= j < |before| ==> !IsDone(before[j])
    requires IsDone(done)
    ensures TakeUntilDone(before + [done] + after) == before
  {
    TakeUntilDoneUnique(before + [done] + after, before);
  }

  /** Creates a form for `user` and adds the tokens one by one until a token
      equal to `done` (ignoring ASCII case) is read. A stream that ends
      before any `done` makes reading the next token fail, and no form is
      returned. */
  method GetFormInput(user: User, tokens: seq<string>) returns (result: Option<Form>)
    ensures result.Some? <==> exists j :: 0 <= j < |tokens| && IsDone(tokens[j])
    ensures result.Some? ==> fresh(result.value)
    ensures result.Some? ==> result.value.user == user && result.value.projects == TakeUntilDone(tokens)
  {
    var form := new Form(user);
    if |tokens| == 0 {
      return None;
    }
    var i := 0;
    var project := tokens[i];
    while !IsDone(project)
      invariant 0 <= i < |tokens| && project == tokens[i]
      invariant form.user == user && form.projects == tokens[..i]
      invariant forall j :: 0 <= j < i ==> !IsDone(tokens[j])
      decreases |tokens| - i
    {
      form.AddProject(project);
      assert tokens[..i + 1] == tokens[..i] + [project];
      i := i + 1;
      if i == |tokens| {
        return None;
      }
      project := tokens[i];
    }
    TakeUntilDoneUnique(tokens, tokens[..i]);
    result := Some(form);
  }

  /** The generation the program performs once its inputs are read: choose
      the template file, read it (`readTemplate` stands for the file
      system), collect the projects and render the portfolio. The result
      is the portfolio of the collected projects whichever template was
      chosen and whatever it holds; there is none when the token stream
      ends before `done`. */
  method GeneratePortfolioFromInput(templateChoice: int, user: User, tokens: seq<string>,
                                    readTemplate: string -> string)
    returns (portfolioHtml: Option<string>)
    ensures portfolioHtml.Some? <==> exists j :: 0 <= j < |tokens| && IsDone(tokens[j])
    ensures portfolioHtml.Some? ==> portfolioHtml.value == Html(user, TakeUntilDone(tokens))
  {
    var form := GetFormInput(user, tokens);
    if form.None? {
      return None;
    }
    var website := new PortfolioWebsite(form.value);
    var templateFileName := TemplateFileName(templateChoice);
    var html := website.GeneratePortfolio(readTemplate(templateFileName));
    portfolioHtml := Some(html);
  }
}
