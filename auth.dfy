/**
 * The mock authentication provider (context/auth-context.tsx): the signed-in
 * user, a loading flag, and their mirror under one local-storage key. The
 * simulated one-second delays are immediate steps here.
 */
module Auth {
  import opened Common
  import opened Storage

  const UserKey: string := "finova_user"

  /** The fields of the sign-up form that `signup` reads, and the form itself. */
  datatype SignupData = SignupData(
    firstName: string, lastName: string, email: string, password: string, confirmPassword: string)

  /** `email.split("@")[0]`: the text before the first '@', or all of it when there is none. */
  function EmailPrefix(email: string): (name: string)
    ensures '@' !in name
    ensures name <= email
    ensures |name| < |email| ==> email[|name|] == '@'
  {
    if email == [] || email[0] == '@' then [] else [email[0]] + EmailPrefix(email[1..])
  }

  /** An email without '@' is its own name. */
  lemma {:induction false} EmailPrefixWithoutAt(email: string)
    requires '@' !in email
    ensures EmailPrefix(email) == email
  {
    if email != [] {
      assert email[0] in email;
      assert forall c :: c in email[1..] ==> c in email;
      EmailPrefixWithoutAt(email[1..]);
      assert [email[0]] + email[1..] == email;
    }
  }

  /** The prefix rule determines the name: an '@'-free prefix followed by '@' or the end is it. */
  lemma {:induction false} EmailPrefixUnique(email: string, name: string)
    requires '@' !in name && name <= email
    requires |name| < |email| ==> email[|name|] == '@'
    ensures EmailPrefix(email) == name
  {
    if name != [] {
      assert name[0] in name;
      assert forall c :: c in name[1..] ==> c in name;
      assert email[0] == name[0];
      EmailPrefixUnique(email[1..], name[1..]);
      assert [name[0]] + name[1..] == name;
    }
  }

  /** The user record `login` builds. */
  function LoginUser(email: string): (u: Person)
    ensures u.email == email && u.name == EmailPrefix(email)
  {
    Person(EmailPrefix(email), email)
  }

  /** The user record `signup` builds. */
  function SignupUser(d: SignupData): (u: Person)
    ensures u.email == d.email
    ensures u.name == d.firstName + " " + d.lastName
    ensures |u.name| == |d.firstName| + 1 + |d.lastName| && u.name[|d.firstName|] == ' '
  {
    Person(d.firstName + " " + d.lastName, d.email)
  }

  /** The stored user agrees with the provider's: present exactly when signed in, and the same record. */
  predicate Mirrors(entries: map<string, Entry>, user: Option<Person>)
  {
    match user
    case None => UserKey !in entries
    case Some(u) => UserKey in entries && entries[UserKey] == PersonRecord(u)
  }

  class AuthProvider {
    const store: LocalStore
    var user: Option<Person>
    var isLoading: bool

    /** A client component: the provider only ever runs in a browser. */
    constructor (store: LocalStore)
      requires store.isBrowser
      ensures this.store == store && user == None && isLoading
    {
      this.store := store;
      user := None;
      isLoading := true;
    }

    /**
     * The initial-load effect. An empty stored string is falsy and is
     * skipped; any other stored value that does not parse throws before
     * loading ends, and `threw` reports that.
     */
    method LoadStoredUser() returns (threw: bool)
      modifies this
      ensures threw <==> UserKey in store.entries && store.entries[UserKey] == Malformed
      ensures threw ==> user == old(user) && isLoading == old(isLoading)
      ensures UserKey in store.entries && store.entries[UserKey] == EmptyText ==>
                !threw && user == old(user) && !isLoading
      ensures !threw ==> !isLoading
      ensures !threw && UserKey in store.entries && store.entries[UserKey].PersonRecord? ==>
                user == Some(store.entries[UserKey].person)
      ensures !threw && !(UserKey in store.entries && store.entries[UserKey].PersonRecord?) ==> user == old(user)
      ensures !threw && old(user) == None && (UserKey in store.entries ==> store.entries[UserKey].PersonRecord?) ==>
                Mirrors(store.entries, user)
    {
      threw := false;
      if UserKey in store.entries {
        var stored := store.entries[UserKey];
        if stored == Malformed {
          threw := true;
          return;
        }
        if stored.PersonRecord? {
          user := Some(stored.person);
        }
      }
      isLoading := false;
    }

    /** `login`; the password is not looked at. */
    method Login(email: string, password: string)
      modifies this, store
      ensures user == Some(LoginUser(email))
      ensures store.entries == old(store.entries)[UserKey := PersonRecord(LoginUser(email))]
      ensures !isLoading && Mirrors(store.entries, user)
    {
      isLoading := true;
      var userData := LoginUser(email);
      store.entries := store.entries[UserKey := PersonRecord(userData)];
      user := Some(userData);
      isLoading := false;
    }

    /** `signup` */
    method Signup(userData: SignupData)
      modifies this, store
      ensures user == Some(SignupUser(userData))
      ensures store.entries == old(store.entries)[UserKey := PersonRecord(SignupUser(userData))]
      ensures !isLoading && Mirrors(store.entries, user)
    {
      isLoading := true;
      var newUser := SignupUser(userData);
      store.entries := store.entries[UserKey := PersonRecord(newUser)];
      user := Some(newUser);
      isLoading := false;
    }

    /** `logout`: the loading flag is left as it was. */
    method Logout()
      modifies this, store
      ensures user == None && isLoading == old(isLoading)
      ensures store.entries == old(store.entries) - {UserKey}
      ensures Mirrors(store.entries, user)
    {
      store.entries := store.entries - {UserKey};
      user := None;
    }
  }
}
