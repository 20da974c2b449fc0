/** The portfolio website: it reads its form and hands the user and the
    project list to the HTML generator. */
module Website {
  import opened Forms
  import opened HtmlGenerator

  class PortfolioWebsite {
    var form: Form

    constructor (form: Form)
      ensures this.form == form
    {
      this.form := form;
    }

    /** Renders the form's current user and projects. The method has no
        `modifies` clause, so the form, its user and its project list are
        unchanged; the template argument does not influence the result. */
    method GeneratePortfolio(templateHtml: string) returns (html: string)
      ensures html == Html(form.user, form.projects)
    {
      var user := form.GetUser();
      var projects := form.GetProjects();
      html := GenerateHtml(user, projects, templateHtml);
    }
  }
}
