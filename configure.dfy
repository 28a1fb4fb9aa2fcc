/** The project configuration page (packages/frontend/src/pages/ConfigurePage.tsx):
    the sanitiser that turns the typed project name into the name sent to the backend,
    its `"project"` fallback for display, and the guards on deploying. */
module Configure {
  import opened JsText

  /** The characters `[a-z0-9-]` accepts. */
  predicate IsNameChar(c: char) {
    IsLowerAscii(c) || IsDigit(c) || c == '-'
  }

  /** `name.toLowerCase().replace(/[^a-z0-9-]/g, "-")`. */
  function Sanitize(name: string): (r: string)
    ensures |r| == |name|
    ensures forall i :: 0 <= i < |r| ==> IsNameChar(r[i])
    ensures forall i :: 0 <= i < |r| ==> (IsNameChar(LowerChar(name[i])) <==> r[i] == LowerChar(name[i]))
    ensures forall i :: 0 <= i < |r| ==> (!IsNameChar(LowerChar(name[i])) <==> r[i] == '-' && name[i] != '-')
  {
    seq(|name|, i requires 0 <= i < |name| =>
      var c := LowerChar(name[i]);
      if IsNameChar(c) then c else '-')
  }

  /** Sanitising a sanitised name changes nothing. */
  lemma SanitizeIdempotent(name: string)
    ensures Sanitize(Sanitize(name)) == Sanitize(name)
  {
    var s := Sanitize(name);
    forall i | 0 <= i < |s|
      ensures Sanitize(s)[i] == s[i]
    {
      assert LowerChar(s[i]) == s[i];
    }
  }

  /** Names made only of allowed characters are sent as typed. */
  lemma SanitizeKeepsAllowed(name: string)
    requires forall i :: 0 <= i < |name| ==> IsNameChar(name[i])
    ensures Sanitize(name) == name
  {
    forall i | 0 <= i < |name|
      ensures Sanitize(name)[i] == name[i]
    {
      assert LowerChar(name[i]) == name[i];
    }
  }

  /** `sanitizedName`: the sanitised name, or `"project"` when it is empty. */
  function DisplayName(projectName: string): (r: string)
    ensures r == "project" <==> projectName == "" || Sanitize(projectName) == "project"
    ensures projectName != "" ==> r == Sanitize(projectName)
    ensures r != ""
  {
    var s := Sanitize(projectName);
    if s == "" then "project" else s
  }

  datatype DeployRequest = DeployRequest(repoFullName: string, projectName: string)

  /** `handleDeploy`: nothing is sent unless both route parameters are present; the
      request names the repository as `owner/repo` and carries the sanitised name. */
  function HandleDeploy(owner: Option<string>, repo: Option<string>, projectName: string): (r: Option<DeployRequest>)
    ensures r.Some? <==> Truthy(owner) && Truthy(repo)
    ensures r.Some? ==> r.value.repoFullName == owner.value + "/" + repo.value
    ensures r.Some? ==> r.value.projectName == Sanitize(projectName)
  {
    if !Truthy(owner) || !Truthy(repo) then None
    else Some(DeployRequest(owner.value + "/" + repo.value, Sanitize(projectName)))
  }

  /** The deploy button's `disabled` flag. */
  function ButtonDisabled(projectName: string, isPending: bool): (r: bool)
    ensures !r <==> Trim(projectName) != "" && !isPending
  {
    Trim(projectName) == "" || isPending
  }

  /** The button guard looks at the trimmed name: a blank on either side leaves it as
      it is. */
  lemma GuardIgnoresSurroundingBlanks(name: string, isPending: bool)
    ensures ButtonDisabled(" " + name + " ", isPending) == ButtonDisabled(name, isPending)
  {
    var padded := " " + name + " ";
    if forall i :: 0 <= i < |name| ==> IsJsSpace(name[i]) {
      forall i | 0 <= i < |padded|
        ensures IsJsSpace(padded[i])
      {
        if 0 < i < |padded| - 1 {
          assert padded[i] == name[i - 1];
        }
      }
    } else {
      var k :| 0 <= k < |name| && !IsJsSpace(name[k]);
      assert padded[k + 1] == name[k];
    }
  }

  /** The request carries the untrimmed name, whose surrounding blanks are sent as
      `-`. */
  lemma SurroundingBlanksBecomeHyphens(name: string)
    ensures Sanitize(" " + name + " ") == "-" + Sanitize(name) + "-"
  {
    var padded := " " + name + " ";
    var r := Sanitize(padded);
    var expected := "-" + Sanitize(name) + "-";
    forall i | 0 <= i < |r|
      ensures r[i] == expected[i]
    {
      if 0 < i < |r| - 1 {
        assert padded[i] == name[i - 1];
        assert expected[i] == Sanitize(name)[i - 1];
      }
    }
  }
}
