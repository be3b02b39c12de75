/**
 * User: a name of at least two characters and an email containing '@'; the
 * personal group is recorded after registration.
 */
module Users {
  import opened Results

  datatype Option<T> = None | Some(value: T)

  /** The checks `User.create` makes, name first. */
  function CheckRules(name: string, email: string): (r: Result<()>)
    ensures |name| < 2 ==> r == Fail(NameTooShort)
    ensures |name| >= 2 && '@' !in email ==> r == Fail(InvalidEmail)
    ensures r.Ok? <==> |name| >= 2 && '@' in email
  {
    // The empty-string disjuncts stand for the source's `!props.name` and `!props.email` tests.
    if |name| == 0 || |name| < 2 then Fail(NameTooShort)
    else if |email| == 0 || '@' !in email then Fail(InvalidEmail)
    else Ok(())
  }

  class User {
    const id: string
    const name: string
    const email: string
    var personalGroupId: Option<string>

    constructor (name: string, email: string, personalGroupId: Option<string>, id: string)
      ensures this.id == id && this.name == name && this.email == email
      ensures this.personalGroupId == personalGroupId
    {
      this.id := id;
      this.name := name;
      this.email := email;
      this.personalGroupId := personalGroupId;
    }

    /** `User.create`: a new User with exactly the given fields, if they pass the rules. */
    static method Create(name: string, email: string, personalGroupId: Option<string>, id: string)
      returns (r: Result<User>)
      ensures r.Fail? <==> CheckRules(name, email).Fail?
      ensures r.Fail? ==> r.error == CheckRules(name, email).error
      ensures r.Ok? ==> fresh(r.value) && r.value.id == id && r.value.name == name
                        && r.value.email == email && r.value.personalGroupId == personalGroupId
    {
      var rules := CheckRules(name, email);
      if rules.Fail? {
        return Fail(rules.error);
      }
      var u := new User(name, email, personalGroupId, id);
      return Ok(u);
    }

    /** `setPersonalGroup`: records the group and changes nothing else. */
    method SetPersonalGroup(groupId: string)
      modifies this`personalGroupId
      ensures personalGroupId == Some(groupId)
    {
      personalGroupId := Some(groupId);
    }
  }

  /** "小明" with "ming@example.com" passes; "a" is too short; "invalid-email" lacks '@'. */
  lemma RegistrationExamples()
    ensures CheckRules("小明", "ming@example.com") == Ok(())
    ensures CheckRules("a", "test@test.com") == Fail(NameTooShort)
    ensures CheckRules("小明", "invalid-email") == Fail(InvalidEmail)
  {
    assert "ming@example.com"[4] == '@';
  }
}
