/**
 * The client's form schemas (client/src/types/schema.ts) as acceptance
 * predicates. The e-mail format check and the date coercion are done by the
 * validation library; they are parameters here (`isEmail`, `isDate`).
 */
module Schema {
  import opened Domain

  predicate LengthWithin(s: string, lo: nat, hi: nat)
  {
    lo <= |s| <= hi
  }

  datatype UserForm = UserForm(name: string, email: string, password: string)
  datatype SignInForm = SignInForm(email: string, password: string)
  datatype UpdateForm = UpdateForm(name: string, email: string)
  datatype ProjectForm = ProjectForm(projectName: string, description: string)
  datatype TaskForm = TaskForm(taskName: string, description: string, status: string, priority: string, dueDate: string)

  /** `userSchema` */
  predicate UserAccepts(u: UserForm, isEmail: string -> bool)
  {
    LengthWithin(u.name, 1, 20) && isEmail(u.email) && LengthWithin(u.password, 1, 8)
  }

  /** `userSchema.omit({ name: true })` */
  predicate SignInAccepts(f: SignInForm, isEmail: string -> bool)
  {
    isEmail(f.email) && LengthWithin(f.password, 1, 8)
  }

  /** `userSchema.omit({ password: true })` */
  predicate UpdateAccepts(f: UpdateForm, isEmail: string -> bool)
  {
    LengthWithin(f.name, 1, 20) && isEmail(f.email)
  }

  /** `ProjectSchema` */
  predicate ProjectAccepts(p: ProjectForm)
  {
    LengthWithin(p.projectName, 1, 20) && LengthWithin(p.description, 1, 60)
  }

  /** `TaskSchema` */
  predicate TaskAccepts(t: TaskForm, isDate: string -> bool)
  {
    && LengthWithin(t.taskName, 1, 20)
    && LengthWithin(t.description, 1, 100)
    && IsStatus(t.status)
    && IsPriority(t.priority)
    && isDate(t.dueDate)
  }

  /** The parts of a user record the derived schemas look at. */
  function ToSignIn(u: UserForm): SignInForm
  {
    SignInForm(u.email, u.password)
  }

  function ToUpdate(u: UserForm): UpdateForm
  {
    UpdateForm(u.name, u.email)
  }

  /**
   * The task schema in full: a name of 1 to 20 and a description of 1 to 100
   * characters, one of the four status strings, one of the three priority
   * strings, and a due date the date coercion accepts.
   */
  lemma TaskSchemaRule(t: TaskForm, isDate: string -> bool)
    ensures TaskAccepts(t, isDate) <==>
      && 1 <= |t.taskName| <= 20
      && 1 <= |t.description| <= 100
      && t.status in {"TODO", "IN_PROGRESS", "IN_REVIEW", "DONE"}
      && t.priority in {"low", "medium", "high"}
      && isDate(t.dueDate)
  {
  }

  /** The project schema in full: a name of 1 to 20 and a description of 1 to 60 characters. */
  lemma ProjectSchemaRule(p: ProjectForm)
    ensures ProjectAccepts(p) <==> 1 <= |p.projectName| <= 20 && 1 <= |p.description| <= 60
  {
  }

  /** The user schema in full: a name of 1 to 20 characters, an e-mail, a password of 1 to 8 characters. */
  lemma UserSchemaRule(u: UserForm, isEmail: string -> bool)
    ensures UserAccepts(u, isEmail) <==> 1 <= |u.name| <= 20 && isEmail(u.email) && 1 <= |u.password| <= 8
  {
  }

  /** Sign-in ignores the name; update ignores the password. */
  lemma DerivedSchemasIgnoreOmittedField(u: UserForm, v: UserForm, isEmail: string -> bool)
    ensures u.email == v.email && u.password == v.password ==>
      SignInAccepts(ToSignIn(u), isEmail) == SignInAccepts(ToSignIn(v), isEmail)
    ensures u.email == v.email && u.name == v.name ==>
      UpdateAccepts(ToUpdate(u), isEmail) == UpdateAccepts(ToUpdate(v), isEmail)
  {
  }

  /** Whatever the full user schema accepts, both derived schemas accept. */
  lemma UserAcceptanceCarriesOver(u: UserForm, isEmail: string -> bool)
    requires UserAccepts(u, isEmail)
    ensures SignInAccepts(ToSignIn(u), isEmail)
    ensures UpdateAccepts(ToUpdate(u), isEmail)
  {
  }
}
