/** The profile page's edit form: field edits, the skill list, cancelling,
    and saving through the profile update. */
module ProfilePage {
  import opened Outcomes
  import opened Text
  import opened Types
  import opened Services

  datatype TextField = Name | Title | CompanyName | Place | Bio

  datatype Form = Form(
    name: string,
    title: string,
    company: string,
    location: string,
    bio: string,
    skills: seq<string>)

  datatype State = State(form: Form, newSkill: string, editing: bool)

  /** The form filled from the stored user: `''` for a missing text,
      `[]` for missing skills. */
  function FormFromUser(u: User): (f: Form)
    ensures f.name == u.fullName
    ensures f.title == (if u.professionalTitle.Some? then u.professionalTitle.value else "")
    ensures f.company == (if u.company.Some? then u.company.value else "")
    ensures f.location == (if u.location.Some? then u.location.value else "")
    ensures f.bio == (if u.bio.Some? then u.bio.value else "")
    ensures f.skills == (if u.skills.Some? then u.skills.value else [])
  {
    Form(u.fullName, u.professionalTitle.GetOr(""), u.company.GetOr(""),
         u.location.GetOr(""), u.bio.GetOr(""), u.skills.GetOr([]))
  }

  function GetText(form: Form, f: TextField): string {
    match f
    case Name => form.name
    case Title => form.title
    case CompanyName => form.company
    case Place => form.location
    case Bio => form.bio
  }

  /** `handleInputChange(field, value)`: that field takes the value; the
      other fields, the skills, the pending skill and the mode are kept. */
  function HandleInputChange(st: State, f: TextField, v: string): (r: State)
    ensures GetText(r.form, f) == v
    ensures forall g :: g != f ==> GetText(r.form, g) == GetText(st.form, g)
    ensures r.form.skills == st.form.skills
    ensures r.newSkill == st.newSkill && r.editing == st.editing
  {
    var form := match f
      case Name => st.form.(name := v)
      case Title => st.form.(title := v)
      case CompanyName => st.form.(company := v)
      case Place => st.form.(location := v)
      case Bio => st.form.(bio := v);
    st.(form := form)
  }

  /** Typing a field's old value back restores the whole state. */
  lemma InputChangeBack(st: State, f: TextField, v: string)
    ensures HandleInputChange(HandleInputChange(st, f, v), f, GetText(st.form, f)) == st
  {
    var back := HandleInputChange(HandleInputChange(st, f, v), f, GetText(st.form, f));
    assert GetText(back.form, Name) == GetText(st.form, Name);
    assert GetText(back.form, Title) == GetText(st.form, Title);
    assert GetText(back.form, CompanyName) == GetText(st.form, CompanyName);
    assert GetText(back.form, Place) == GetText(st.form, Place);
    assert GetText(back.form, Bio) == GetText(st.form, Bio);
  }

  // ---------------------------------------------------------------------
  // The skill list
  // ---------------------------------------------------------------------

  predicate NoDuplicates(xs: seq<string>) {
    forall i, j :: 0 <= i < j < |xs| ==> xs[i] != xs[j]
  }

  /** `a` is `b` with some entries left out, the rest in order. */
  ghost predicate SubsequenceOf(a: seq<string>, b: seq<string>)
    decreases |b|
  {
    if |a| == 0 then true
    else if |b| == 0 then false
    else if a[0] == b[0] then SubsequenceOf(a[1..], b[1..])
    else SubsequenceOf(a, b[1..])
  }

  /** `skills.filter(s => s !== x)`. */
  function Without(skills: seq<string>, x: string): (r: seq<string>)
    ensures x !in r
    ensures multiset(r) == multiset(skills)[x := 0]
    ensures x !in skills ==> r == skills
  {
    if |skills| == 0 then []
    else
      assert skills == [skills[0]] + skills[1..];
      (if skills[0] == x then [] else [skills[0]]) + Without(skills[1..], x)
  }

  /** Removal keeps the surviving skills in their order. */
  lemma {:induction false} WithoutKeepsOrder(skills: seq<string>, x: string)
    ensures SubsequenceOf(Without(skills, x), skills)
  {
    if |skills| > 0 {
      WithoutKeepsOrder(skills[1..], x);
      var rest := Without(skills[1..], x);
      if skills[0] != x {
        assert ([skills[0]] + rest)[1..] == rest;
      } else {
        assert Without(skills, x) == rest;
      }
    }
  }

  /** `addSkill()`: the trimmed pending skill is appended when it is
      non-empty and new, and only then is the pending text cleared;
      otherwise nothing changes. */
  function AddSkill(st: State): (r: State)
    ensures var t := Trim(st.newSkill);
      && (t != "" && t !in st.form.skills ==>
            r.form.skills == st.form.skills + [t] && r.newSkill == "")
      && (t == "" || t in st.form.skills ==> r == st)
    ensures r.form.(skills := st.form.skills) == st.form && r.editing == st.editing
  {
    var t := Trim(st.newSkill);
    if t != "" && t !in st.form.skills then
      st.(form := st.form.(skills := st.form.skills + [t]), newSkill := "")
    else st
  }

  /** `removeSkill(x)`: every entry equal to `x` leaves the list. */
  function RemoveSkill(st: State, x: string): (r: State)
    ensures r.form.skills == Without(st.form.skills, x)
    ensures r.form.(skills := st.form.skills) == st.form
    ensures r.newSkill == st.newSkill && r.editing == st.editing
  {
    st.(form := st.form.(skills := Without(st.form.skills, x)))
  }

  /** Adding never introduces a duplicate. */
  lemma AddSkillKeepsNoDuplicates(st: State)
    requires NoDuplicates(st.form.skills)
    ensures NoDuplicates(AddSkill(st).form.skills)
  {
  }

  lemma {:induction false} WithoutKeepsNoDuplicates(skills: seq<string>, x: string)
    requires NoDuplicates(skills)
    ensures NoDuplicates(Without(skills, x))
  {
    if |skills| > 0 {
      WithoutKeepsNoDuplicates(skills[1..], x);
      var rest := Without(skills[1..], x);
      if skills[0] != x {
        assert skills[0] !in skills[1..];
        assert multiset(rest)[skills[0]] == 0;
        assert skills[0] !in rest;
      }
    }
  }

  /** Removing never introduces a duplicate. */
  lemma RemoveSkillKeepsNoDuplicates(st: State, x: string)
    requires NoDuplicates(st.form.skills)
    ensures NoDuplicates(RemoveSkill(st, x).form.skills)
  {
    WithoutKeepsNoDuplicates(st.form.skills, x);
  }

  /** Removing the skill just added restores the list, and adding again
      right away does nothing (the pending text was cleared). */
  lemma AddThenRemove(st: State)
    ensures AddSkill(AddSkill(st)) == AddSkill(st)
    ensures var t := Trim(st.newSkill);
      t != "" && t !in st.form.skills ==>
        RemoveSkill(AddSkill(st), t).form.skills == st.form.skills
  {
    var t := Trim(st.newSkill);
    var a := AddSkill(st);
    if t != "" && t !in st.form.skills {
      assert Trim(a.newSkill) == "";
      WithoutAppend(st.form.skills, t);
    }
  }

  lemma {:induction false} WithoutAppend(xs: seq<string>, t: string)
    requires t !in xs
    ensures Without(xs + [t], t) == xs
  {
    if |xs| == 0 {
      assert [t][1..] == [];
    } else {
      assert (xs + [t])[1..] == xs[1..] + [t];
      WithoutAppend(xs[1..], t);
      assert xs == [xs[0]] + xs[1..];
    }
  }

  /** `handleCancel()`: the form is refilled from the stored user and
      editing ends; the pending skill text is kept. */
  function HandleCancel(st: State, u: User): (r: State)
    ensures r.form == FormFromUser(u) && !r.editing
    ensures r.newSkill == st.newSkill
  {
    State(FormFromUser(u), st.newSkill, false)
  }

  // ---------------------------------------------------------------------
  // Saving
  // ---------------------------------------------------------------------

  /** The profile update the save button sends, as written: the form object
      itself. Its keys `name` and `title` are not `User` keys, so only
      `company`, `location`, `bio` and `skills` take part in the merge; no
      other `User` key is present. */
  function SavePatchAsWritten(form: Form): (p: UserPatch)
    ensures p.company == Some(Some(form.company)) && p.location == Some(Some(form.location))
    ensures p.bio == Some(Some(form.bio)) && p.skills == Some(Some(form.skills))
    ensures p.id.None? && p.email.None? && p.fullName.None? && p.professionalTitle.None?
    ensures p.avatar.None? && p.experience.None? && p.education.None?
  {
    EmptyPatch.(company := Some(Some(form.company)), location := Some(Some(form.location)),
                bio := Some(Some(form.bio)), skills := Some(Some(form.skills)))
  }

  /** As written, an edited name or title is lost: the saved user keeps its
      old ones, so the form refilled from it differs from what was saved. */
  lemma SaveAsWrittenLosesName(u: User, form: Form)
    requires form.name != u.fullName
    ensures MergeUser(u, SavePatchAsWritten(form)).fullName == u.fullName
    ensures FormFromUser(MergeUser(u, SavePatchAsWritten(form))) != form
  {
  }

  /** The profile update with each form field sent under its `User` key:
      `name` as `fullName`, `title` as `professionalTitle`, and the other
      four under their own names; no other `User` key is present. */
  function SavePatch(form: Form): (p: UserPatch)
    ensures p.fullName == Some(form.name) && p.professionalTitle == Some(Some(form.title))
    ensures p.company == Some(Some(form.company)) && p.location == Some(Some(form.location))
    ensures p.bio == Some(Some(form.bio)) && p.skills == Some(Some(form.skills))
    ensures p.id.None? && p.email.None?
    ensures p.avatar.None? && p.experience.None? && p.education.None?
  {
    EmptyPatch.(fullName := Some(form.name), professionalTitle := Some(Some(form.title)),
                company := Some(Some(form.company)), location := Some(Some(form.location)),
                bio := Some(Some(form.bio)), skills := Some(Some(form.skills)))
  }

  /** Saving then refilling the form from the saved user gives back exactly
      the form that was saved, whatever the stored user was. */
  lemma SaveRoundTrip(u: User, form: Form)
    ensures FormFromUser(MergeUser(u, SavePatch(form))) == form
    ensures MergeUser(u, SavePatch(form)).id == u.id && MergeUser(u, SavePatch(form)).email == u.email
  {
  }

  datatype SaveResult = SaveResult(state: State, storedUser: Option<User>)

  /** `handleSave()` as written, given how reading the current profile
      settles: on success the current user merged with the form object is
      stored and editing ends; on failure nothing changes. */
  function HandleSave(st: State, current: Outcome<User>): (r: SaveResult)
    ensures current.Ok? ==> r.storedUser == Some(MergeUser(current.value, SavePatchAsWritten(st.form)))
    ensures current.Ok? ==> !r.state.editing
    ensures current.Err? ==> r.storedUser.None? && r.state == st
    ensures r.state.form == st.form && r.state.newSkill == st.newSkill
  {
    match UpdateProfile(current, SavePatchAsWritten(st.form))
    case Ok(u) => SaveResult(st.(editing := false), Some(u))
    case Err(_) => SaveResult(st, None)
  }

  /** As written, pressing Edit and then Cancel after a successful save
      keeps the saved company, location, bio and skills, but puts back the
      stored name and title: an edit to either is undone. (Cancel is only
      offered while editing, and Edit only switches editing on.) */
  lemma CancelAfterSave(st: State, current: Outcome<User>)
    requires current.Ok?
    ensures var saved := HandleSave(st, current);
      var back := HandleCancel(saved.state, saved.storedUser.value).form;
      && saved.storedUser.Some?
      && back.company == st.form.company && back.location == st.form.location
      && back.bio == st.form.bio && back.skills == st.form.skills
      && back.name == current.value.fullName
      && back.title == current.value.professionalTitle.GetOr("")
  {
  }

  /** `handleSave()` sending each field under its `User` key. */
  function HandleSaveCorrected(st: State, current: Outcome<User>): (r: SaveResult)
    ensures current.Ok? ==> r.storedUser == Some(MergeUser(current.value, SavePatch(st.form)))
    ensures current.Ok? ==> !r.state.editing
    ensures current.Err? ==> r.storedUser.None? && r.state == st
    ensures r.state.form == st.form && r.state.newSkill == st.newSkill
  {
    match UpdateProfile(current, SavePatch(st.form))
    case Ok(u) => SaveResult(st.(editing := false), Some(u))
    case Err(_) => SaveResult(st, None)
  }

  /** With the corrected handler, pressing Edit and then Cancel after a
      successful save keeps what was saved: the form refilled from the stored user is the
      form that was submitted. */
  lemma CancelAfterCorrectedSaveKeepsEdits(st: State, current: Outcome<User>)
    requires current.Ok?
    ensures var saved := HandleSaveCorrected(st, current);
      saved.storedUser.Some? && HandleCancel(saved.state, saved.storedUser.value).form == st.form
  {
    SaveRoundTrip(current.value, st.form);
  }

  /** The two handlers store users that differ at most in the name and the
      title, which the handler as written leaves as they were; when the form
      repeats the stored name and title, they store the same user. */
  lemma SaveHandlersAgreeBeyondNameAndTitle(st: State, current: Outcome<User>)
    requires current.Ok?
    ensures var u := current.value;
      && HandleSave(st, current).storedUser.value
         == HandleSaveCorrected(st, current).storedUser.value.(fullName := u.fullName,
                                                                professionalTitle := u.professionalTitle)
      && (st.form.name == u.fullName && u.professionalTitle == Some(st.form.title) ==>
            HandleSave(st, current) == HandleSaveCorrected(st, current))
  {
  }
}
