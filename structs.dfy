/**
  The `User` struct: `build_user`, assignment to one field of a mutable
  instance, and the two ways `main` builds an instance from another (writing
  every field out, and struct update syntax `..base`).
*/
module Structs {
  import opened RustInts

  datatype User = User(active: bool, username: string, email: string, signInCount: U64)

  /** `a` and `b` agree on every field except possibly `email`. */
  predicate SameExceptEmail(a: User, b: User) {
    a.active == b.active && a.username == b.username && a.signInCount == b.signInCount
  }

  /** `build_user`: a new, active user that has signed in once. */
  function BuildUser(email: string, username: string): (u: User)
    ensures u.active && u.signInCount == 1
    ensures u.email == email && u.username == username
  {
    User(active := true, username := username, email := email, signInCount := 1)
  }

  /**
    A new email on an otherwise unchanged user: both `user.email = email` on a
    mutable instance and `User { email, ..base }`.
  */
  function WithEmail(base: User, email: string): (u: User)
    ensures u.email == email && SameExceptEmail(base, u)
  {
    base.(email := email)
  }

  /**
    A new user whose fields other than `email` are copied one by one from
    `from` (how `main` builds `user2`).
  */
  function CopyWithEmail(from: User, email: string): (u: User)
    ensures u.email == email && SameExceptEmail(from, u)
  {
    User(active := from.active, username := from.username, email := email,
         signInCount := from.signInCount)
  }

  /** Writing each field out and struct update syntax build the same user. */
  lemma CopyIsUpdate(from: User, email: string)
    ensures CopyWithEmail(from, email) == WithEmail(from, email)
  {
  }

  /** A user differs from a base only in its email exactly when it is the base with that email. */
  lemma SameExceptEmailIffWithEmail(base: User, u: User)
    ensures SameExceptEmail(base, u) <==> u == WithEmail(base, u.email)
  {
  }

  /** Only the last of two email assignments is visible. */
  lemma WithEmailLastWins(u: User, first: string, second: string)
    ensures WithEmail(WithEmail(u, first), second) == WithEmail(u, second)
  {
  }

  /** Assigning a user's own email changes nothing, and any other email changes the user. */
  lemma WithEmailUnchangedIff(u: User, email: string)
    ensures WithEmail(u, email) == u <==> email == u.email
  {
  }

  /** `build_user` is injective: different arguments give different users. */
  lemma BuildUserInjective(e1: string, n1: string, e2: string, n2: string)
    ensures BuildUser(e1, n1) == BuildUser(e2, n2) <==> e1 == e2 && n1 == n2
  {
  }

  /**
    The steps of `main`: `user1` is built as a literal and then gets a new
    email, `user2` copies `user1`'s other fields by hand, and `user3` is
    `user2` with another email by struct update syntax.
  */
  method UserDemo() returns (user1: User, user2: User, user3: User)
    ensures user1 == WithEmail(BuildUser("example@e.com", "breyr"), "anotheremail@e.com")
    ensures user2.email == "another@example.com" && SameExceptEmail(user1, user2)
    ensures user3.email == "e@i.com" && SameExceptEmail(user2, user3)
    ensures user3.active && user3.username == "breyr" && user3.signInCount == 1
  {
    user1 := User(active := true, username := "breyr", email := "example@e.com", signInCount := 1);
    user1 := user1.(email := "anotheremail@e.com");
    user2 := User(active := user1.active, username := user1.username,
                  email := "another@example.com", signInCount := user1.signInCount);
    user3 := user2.(email := "e@i.com");
  }
}
