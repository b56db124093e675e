# Rust tutorial programs: the input-driven functions, in Dafny

The repository is a set of independent Rust tutorial programs, each a `main`
that demonstrates one language feature. Four of them hold small functions
whose behaviour depends on their input, and this project models those:

- `rectangles`: the `Rectangle { width, height: u32 }` struct with `area`,
  `can_hold` and the associated constructor `square`, and the sample
  rectangles of `main` (module `Rectangles`, `rectangles.dfy`).
- `ownership`: `calc_length` and `first_word`, which scans a string's bytes
  for the first ASCII space (module `Ownership`, `ownership.dfy`).
- `enums`: the `Coin` and `State` enums and `value_in_cents` (module `Enums`,
  `enums.dfy`).
- `structs`: the `User` struct, `build_user`, field assignment, and building
  one user from another (module `Structs`, `structs.dfy`).

Rust's `u8`, `u32` and `u64` are ranges of integers in module `RustInts`
(`rust_ints.dfy`). A string that is scanned byte by byte is a sequence of
`u8`; a string that is only stored (a user's name and email) is a Dafny
`string`.

`area` multiplies two `u32` values. Rust panics when such a product overflows
(the overflow note at variables/src/main.rs:40), so `Area` returns either
`Fits(value)` or `Overflow`, the panic; every rectangle is a valid argument.
The model follows the overflow-checked (debug) build; a release build would
wrap around instead.

`first_word` is a loop with an early return, so it is the method
`Ownership.FirstWord`. Its result is specified by the function
`PrefixBeforeSpace`, and the properties of `first_word` are proved about that
function. Slicing a `str` at the index of a space byte always lands on a
character boundary, so the model has no panic case there.

Assigning `user1.email` and building `User { email, ..user2 }` both yield the
old value with a new email. `WithEmail` models both. The field-by-field
literal that builds `user2` is `CopyWithEmail`, and a lemma shows the two
forms agree.

## Model

| member | source | states |
|---|---|---|
| `Rectangles.Area` | rectangles/src/main.rs:24-26 | the area is `width * height`; it panics (`Overflow`) exactly when that product exceeds `u32::MAX` |
| `Rectangles.Square` | rectangles/src/main.rs:32-37 | `square(size)` has width and height both equal to `size` |
| `Rectangles.CanHold` | rectangles/src/main.rs:27-29 | holds exactly when the first rectangle is strictly wider and strictly taller than the second |
| `Rectangles.CanHoldIrreflexive` | rectangles/src/main.rs:27-29 | no rectangle can hold itself |
| `Rectangles.CanHoldAsymmetric` | rectangles/src/main.rs:27-29 | if `a` can hold `b` then `b` cannot hold `a` |
| `Rectangles.CanHoldTransitive` | rectangles/src/main.rs:27-29 | if `a` holds `b` and `b` holds `c` then `a` holds `c` |
| `Rectangles.CanHoldIsStrictPartialOrder` | rectangles/src/main.rs:27-29 | `can_hold` is irreflexive and transitive over all rectangles, so it is a strict partial order |
| `Rectangles.CanHoldAreaGreater` | rectangles/src/main.rs:24-29 | a rectangle that can hold another has a strictly larger product of sides; if its area does not overflow, the other's does not either and is smaller |
| `Rectangles.SquareArea` | rectangles/src/main.rs:24-37 | a square's area is `size * size`, and it overflows exactly when `size > 65535` |
| `Rectangles.SquareCanHold` | rectangles/src/main.rs:27-37 | one square can hold another exactly when its size is larger |
| `Rectangles.MainSamples` | rectangles/src/main.rs:41-73 | rect1 (30x50) can hold rect2 (10x40) but not rect3 (60x45); rect1's area is 1500; the square `s1` built by `square(5)` is 5x5 |
| `Ownership.CalcLength` | ownership/src/main.rs:39-41 | `calc_length` is the string's length in bytes |
| `Ownership.PrefixBeforeSpace` | ownership/src/main.rs:43-54 | the first word is a prefix of the string, holds no space, and is followed by a space unless it is the whole string |
| `Ownership.PrefixBeforeSpaceUnique` | ownership/src/main.rs:43-54 | any space-free prefix that ends at a space or at the end of the string is the first word |
| `Ownership.PrefixAtFirstSpace` | ownership/src/main.rs:45-50 | when the first space is at index `i`, the result is the slice `s[0..i]` |
| `Ownership.PrefixWholeIffNoSpace` | ownership/src/main.rs:53 | the result is the whole string exactly when the string holds no space |
| `Ownership.PrefixOfEmpty` | ownership/src/main.rs:53 | the empty string yields the empty string |
| `Ownership.PrefixBeforeSpaceIdempotent` | ownership/src/main.rs:43-54 | the first word of the first word is the first word |
| `Ownership.FirstWordLength` | ownership/src/main.rs:39-54 | the first word's byte length is at most the string's, with equality exactly when there is no space |
| `Ownership.FirstWord` | ownership/src/main.rs:43-54 | the byte scan with early return yields a space-free prefix that stops at the first space or at the end, which is `PrefixBeforeSpace` |
| `Ownership.MainLength` | ownership/src/main.rs:3-5 | `calc_length` of "hello" is 5 |
| `Enums.ValueInCents` | enums/src/main.rs:37-50 | every coin is worth 1, 5, 10 or 25 cents (so within `u8`): 1 exactly for a penny, 5 for a nickel, 10 for a dime, 25 for a quarter |
| `Enums.QuarterValueIgnoresState` | enums/src/main.rs:45-49 | a quarter is worth 25 whatever state it carries |
| `Enums.SameValueIffSameKind` | enums/src/main.rs:37-50 | two coins have the same value exactly when they are the same kind of coin |
| `Enums.ValueBounds` | enums/src/main.rs:37-50 | every coin's value lies between a penny's and a quarter's |
| `Structs.BuildUser` | structs/src/main.rs:57-65 | `build_user` gives an active user with sign-in count 1 and the given email and username, unchanged |
| `Structs.BuildUserInjective` | structs/src/main.rs:57-65 | different email or username arguments give different users |
| `Structs.WithEmail` | structs/src/main.rs:24 | assigning the email changes only the email; `active`, `username` and `sign_in_count` stay as they were |
| `Structs.CopyWithEmail` | structs/src/main.rs:27-32 | the user built field by field has the new email and copies `active`, `username` and `sign_in_count` |
| `Structs.CopyIsUpdate` | structs/src/main.rs:27-40 | writing every field out and struct update syntax build the same user |
| `Structs.SameExceptEmailIffWithEmail` | structs/src/main.rs:37-40 | a user agrees with a base on every field but the email exactly when it is the base with that email |
| `Structs.WithEmailLastWins` | structs/src/main.rs:24 | of two email assignments only the second is visible |
| `Structs.WithEmailUnchangedIff` | structs/src/main.rs:24 | assigning an email leaves the user unchanged exactly when it is the email it already has |
| `Structs.UserDemo` | structs/src/main.rs:15-40 | user1 is the `build_user`-shaped literal with its email replaced; user2 keeps user1's other fields with a new email; user3 keeps user2's other fields with the email "e@i.com" |

## Left out

- The guessing game: it reads standard input, draws a random number from the `rand` crate and re-prompts without bound.
- The variables, functions and control-flow programs: `main` functions over constants with printed results only.
- All `println!` and `dbg!` output, including the two prints inside `value_in_cents` (enums/src/main.rs:40, 47).
- Ownership, moves and borrows: `takes_ownership` and `makes_copy` only print, and `user2` taking `user1.username` by move is a memory-model fact with no effect on the values modelled. The `push_str` call in the ownership program's `main` only feeds a print.
- Data-only declarations with no behaviour: `IpAddrKind`, `IpAddr`, the empty `who_am_i`, `Color`, `AlwaysEqual`.
- `Rectangles.Area`: the wrap-around of a release build is not modelled; `Overflow` is the debug build's panic.
- `Ownership.FirstWord`: returns a copy of the prefix rather than a slice borrowed from its argument.
