/**
 * The account rules inside the authentication controller: how a role is
 * normalised, in which order registration, update and deletion check their
 * input, and which fields an update may change. Tokens, password hashing and
 * the HTTP layer stay outside.
 */
module Auth {
  import opened Common

  /** `toUpperCase` on one character, for the ASCII letters. */
  function UpperChar(c: char): char
  {
    if 'a' <= c <= 'z' then (c as int - 32) as char else c
  }

  function Upper(s: string): string
  {
    seq(|s|, i requires 0 <= i < |s| => UpperChar(s[i]))
  }

  /** No lower-case ASCII letter is left. */
  predicate IsUpper(s: string)
  {
    forall i :: 0 <= i < |s| ==> !('a' <= s[i] <= 'z')
  }

  predicate StartsWith(s: string, prefix: string)
  {
    |prefix| <= |s| && s[..|prefix|] == prefix
  }

  /** Upper-casing leaves no lower-case letter, and changes nothing in a string that has none. */
  lemma UpperFacts(s: string)
    ensures IsUpper(Upper(s))
    ensures IsUpper(s) ==> Upper(s) == s
  {
  }

  /**
   * The role rule shared by registration and update: upper-case the role
   * (registration takes "USER" when none is given), then put "ROLE_" in front
   * unless it already starts with it.
   */
  function NormalizeRole(role: Option<string>): (r: string)
    ensures StartsWith(r, "ROLE_") && IsUpper(r)
    ensures role.None? ==> r == "ROLE_USER"
    ensures role.Some? && StartsWith(Upper(role.value), "ROLE_") ==> r == Upper(role.value)
    ensures role.Some? && !StartsWith(Upper(role.value), "ROLE_") ==> r == "ROLE_" + Upper(role.value)
  {
    var upper := if role.Some? then Upper(role.value) else "USER";
    UpperFacts(if role.Some? then role.value else "USER");
    if StartsWith(upper, "ROLE_") then upper else "ROLE_" + upper
  }

  /** A role already in normal form is kept as it is. */
  lemma NormalizedUnchanged(role: string)
    requires StartsWith(role, "ROLE_") && IsUpper(role)
    ensures NormalizeRole(Some(role)) == role
  {
    UpperFacts(role);
  }

  /** Normalising twice is normalising once. */
  lemma NormalizeIdempotent(role: Option<string>)
    ensures NormalizeRole(Some(NormalizeRole(role))) == NormalizeRole(role)
  {
    NormalizedUnchanged(NormalizeRole(role));
  }

  /** A user account. The username is its identity and is never changed. */
  class Person {
    const username: string
    var yearOfBirth: Option<int>
    var password: Option<string>
    var role: Option<string>
    var email: Option<string>

    constructor (username: string, yearOfBirth: Option<int>, password: Option<string>, role: Option<string>,
                 email: Option<string>)
      ensures this.username == username && this.yearOfBirth == yearOfBirth && this.password == password
      ensures this.role == role && this.email == email
    {
      this.username := username;
      this.yearOfBirth := yearOfBirth;
      this.password := password;
      this.role := role;
      this.email := email;
    }

    /** The fields an update may change. */
    function Fields(): Profile
      reads this
    {
      Profile(yearOfBirth, email, role)
    }
  }

  datatype Profile = Profile(yearOfBirth: Option<int>, email: Option<string>, role: Option<string>)

  /** The registration form. */
  datatype Registration = Registration(username: string, yearOfBirth: Option<int>, password: Option<string>,
                                       email: Option<string>, role: Option<string>)

  /** The update form: every field but the username may be left out (null). */
  datatype PersonUpdate = PersonUpdate(username: Option<string>, yearOfBirth: Option<int>, email: Option<string>,
                                       role: Option<string>)

  datatype PersonDelete = PersonDelete(username: Option<string>, password: Option<string>)

  /** What the controller answers. */
  datatype Reply =
    | ValidationFailed                 // registration with binding errors
    | UserExists
    | Registered(username: string, role: string)
    | UserNotFound
    | ErrorBody                        // update or deletion with binding errors
    | Updated(username: string, yearOfBirth: int, email: string, role: string)
    | ResponseFailed                   // `Map.of` refuses a null value after the update was saved
    | Deleted(username: string)

  /**
   * The partial update: a field given in the form replaces the stored one
   * (the role after normalisation), a field left out keeps its value.
   */
  function Patched(p: Profile, u: PersonUpdate): Profile
  {
    Profile(
      if u.yearOfBirth.Some? then u.yearOfBirth else p.yearOfBirth,
      if u.email.Some? then u.email else p.email,
      if u.role.Some? then Some(NormalizeRole(u.role)) else p.role)
  }

  /**
   * What a partial update does, field by field: the fields left out keep
   * their values, and a given role is stored normalised.
   */
  lemma PatchedFields(p: Profile, u: PersonUpdate)
    ensures u.yearOfBirth.None? ==> Patched(p, u).yearOfBirth == p.yearOfBirth
    ensures u.email.None? ==> Patched(p, u).email == p.email
    ensures u.role.None? ==> Patched(p, u).role == p.role
    ensures u.yearOfBirth.Some? ==> Patched(p, u).yearOfBirth == u.yearOfBirth
    ensures u.email.Some? ==> Patched(p, u).email == u.email
    ensures u.role.Some? ==> Patched(p, u).role.Some? && StartsWith(Patched(p, u).role.value, "ROLE_")
  {
  }

  /** Sending the same update twice changes nothing the second time. */
  lemma PatchIdempotent(p: Profile, u: PersonUpdate)
    ensures Patched(Patched(p, u), u) == Patched(p, u)
  {
    if u.role.Some? {
      NormalizeIdempotent(u.role);
    }
  }

  /** The answer to a saved update: `Map.of` throws when any of the listed values is null. */
  function UpdateReply(username: string, p: Profile): (reply: Reply)
    ensures reply.Updated? <==> p.yearOfBirth.Some? && p.email.Some? && p.role.Some?
    ensures reply.Updated? ==>
      reply == Updated(username, p.yearOfBirth.value, p.email.value, p.role.value)
    ensures !reply.Updated? ==> reply == ResponseFailed
  {
    if p.yearOfBirth.Some? && p.email.Some? && p.role.Some? then
      Updated(username, p.yearOfBirth.value, p.email.value, p.role.value)
    else ResponseFailed
  }

  /** The controller over the people repository, which is keyed by username. */
  class AuthController {
    var people: map<string, Person>

    /** Every account is stored under its own username. */
    predicate Valid()
      reads this, people.Values
    {
      forall u :: u in people ==> people[u].username == u
    }

    constructor ()
      ensures Valid() && people == map[]
    {
      people := map[];
    }

    /**
     * `register`: binding errors first, then a taken username; otherwise the
     * account is saved with its role normalised and its password encoded.
     * `bindingErrors` is the binding result's verdict and `encodedPassword` the
     * password encoder's output.
     */
    method Register(form: Registration, bindingErrors: bool, encodedPassword: Option<string>) returns (reply: Reply)
      requires Valid()
      modifies this
      ensures Valid()
      ensures bindingErrors ==> reply == ValidationFailed && people == old(people)
      ensures !bindingErrors && form.username in old(people) ==> reply == UserExists && people == old(people)
      ensures !bindingErrors && form.username !in old(people) ==>
        var role := NormalizeRole(form.role);
        people.Keys == old(people).Keys + {form.username}
        && var p := people[form.username];
        reply == Registered(form.username, role)
        && (forall u :: u in old(people) ==> people[u] == old(people)[u])
        && fresh(p) && p.yearOfBirth == form.yearOfBirth && p.email == form.email
        && p.password == encodedPassword && p.role == Some(role)
    {
      if bindingErrors {
        return ValidationFailed;
      }
      if form.username in people {
        return UserExists;
      }
      var role := NormalizeRole(form.role);
      var person := new Person(form.username, form.yearOfBirth, encodedPassword, Some(role), form.email);
      people := people[form.username := person];
      reply := Registered(form.username, role);
    }

    /**
     * `updateUser`: the username is looked up first and binding errors are
     * checked only after; then the given fields are written and the account is
     * saved. Username and password never change.
     */
    method UpdateUser(form: PersonUpdate, bindingErrors: bool) returns (reply: Reply)
      requires Valid()
      modifies people.Values
      ensures Valid()
      ensures form.username.None? || form.username.value !in people ==>
        reply == UserNotFound && forall u :: u in people ==> unchanged(people[u])
      ensures form.username.Some? && form.username.value in people && bindingErrors ==>
        reply == ErrorBody && forall u :: u in people ==> unchanged(people[u])
      ensures form.username.Some? && form.username.value in people && !bindingErrors ==>
        var p := people[form.username.value];
        p.Fields() == Patched(old(p.Fields()), form) && p.password == old(p.password)
        && reply == UpdateReply(p.username, p.Fields())
        && forall u :: u in people && u != form.username.value ==> unchanged(people[u])
    {
      if form.username.None? || form.username.value !in people {
        return UserNotFound;
      }
      var person := people[form.username.value];
      if bindingErrors {
        return ErrorBody;
      }
      if form.yearOfBirth.Some? {
        person.yearOfBirth := form.yearOfBirth;
      }
      if form.email.Some? {
        person.email := form.email;
      }
      if form.role.Some? {
        person.role := Some(NormalizeRole(form.role));
      }
      reply := UpdateReply(person.username, person.Fields());
    }

    /** `deleteUser`: binding errors first, then the lookup, then the deletion. */
    method DeleteUser(form: PersonDelete, bindingErrors: bool) returns (reply: Reply)
      requires Valid()
      modifies this
      ensures Valid()
      ensures bindingErrors ==> reply == ErrorBody && people == old(people)
      ensures !bindingErrors && (form.username.None? || form.username.value !in old(people)) ==>
        reply == UserNotFound && people == old(people)
      ensures !bindingErrors && form.username.Some? && form.username.value in old(people) ==>
        reply == Deleted(form.username.value) && people == old(people) - {form.username.value}
    {
      if bindingErrors {
        return ErrorBody;
      }
      if form.username.None? || form.username.value !in people {
        return UserNotFound;
      }
      var username := people[form.username.value].username;
      people := people - {form.username.value};
      reply := Deleted(username);
    }
  }
}
