# Git command header of the git-salt plugin, modelled in Dafny

The git-salt native plugin turns requests from the editor into libgit2 calls.
Each request is a loosely typed dictionary (a `pp::VarDictionary`). A command
object (`GitCommand` and its subclasses) is built from the request, and it
pulls typed arguments out of the dictionary. The header
`lib/git_salt/git_command.h` holds the only logic of this layer whose bodies
are visible:

- `parseString` and `parseInt`, the typed field extractors. Each one looks a
  named field up in the message and tests its dynamic type. On success it
  writes the value to the caller's out-parameter and returns 0. On failure it
  returns 1 and leaves the out-parameter unchanged.
- the `GitCommand` constructor. It binds the plugin instance, the arguments
  and the subject, and it makes `repo` a reference to the caller's
  `git_repository*` variable. `GitGetBranches` adds one field, `flags`.

Files:

- `pp_var.dfy` (module `PpVar`): the PPAPI values the extractors read. `Var`
  is a dynamically typed value with the `is_string` / `is_int` tests and the
  `AsString` / `AsInt` accessors. `VarDictionary` is a `map<string, Var>`, and
  `Get` returns `Undefined` for a key that is not present, as
  `pp::VarDictionary::Get` does. C's `int` is the `int32` newtype.
- `field_extractor.dfy` (module `FieldExtractor`): `ParseString` and
  `ParseInt`. The field name is a `const char*`, modelled as the character
  buffer it points to. That buffer must hold a NUL. `CString` gives the key
  that `message.Get(name)` looks up: the characters before the first NUL.
  The out-parameter is an in/out pair: the method takes the caller's current
  value and returns the value the caller holds afterwards. The message is
  passed by value, so it cannot change.
- `git_command.dfy` (module `GitCommands`): the command classes. The
  caller's `git_repository*` variable is a `RepositorySlot` object. A
  command's `repo` is a `const` field that refers to that object, because a
  C++ reference member cannot be re-seated. Dafny has no class inheritance
  here, so `GitGetBranches` holds its `GitCommand` base sub-object in
  `command`, next to `flags`.

## Model

| member | source | states |
|---|---|---|
| `FieldExtractor.ParseString` | lib/git_salt/git_command.h:22-31 | Returns only 0 or 1. Returns 0 exactly when the field named by `name` is present and holds a string, and then the out-parameter is that string. Returns 1 otherwise, and then the out-parameter keeps the caller's value. An absent field fails the same way as a field of another type. |
| `FieldExtractor.ParseInt` | lib/git_salt/git_command.h:33-42 | Returns only 0 or 1. Returns 0 exactly when the named field is present and holds a 32-bit integer (a double does not qualify), and then `*option` is that integer. Returns 1 otherwise, and then `*option` keeps its old value. An absent field fails the same way as a field of another type. |
| `FieldExtractor.CString` | lib/git_salt/git_command.h:22-24 | The key that the `const char* name` denotes is a prefix of the buffer. It holds no NUL and stops at the buffer's first NUL. |
| `FieldExtractor.LiteralNamesItself` | lib/git_salt/git_command.h:24 | A string literal (characters without a NUL, followed by the terminator) looks up exactly its own characters. |
| `FieldExtractor.NameIgnoresTail` | lib/git_salt/git_command.h:24 | Characters after the terminating NUL never affect which field is looked up. |
| `GitCommands.GitCommand.constructor` | lib/git_salt/git_command.h:52-72 | Stores the given `git_salt`, `subject` and `args`. Makes `repo` refer to the caller's repository slot, which keeps its value. `fileSystem` is null and `fullPath` and `url` are empty, as their default constructors leave them. |
| `GitCommands.GitGetBranches.constructor` | lib/git_salt/git_command.h:118-127 | Builds the `GitCommand` base from the same four arguments, with the same bindings. Promises nothing about `flags`, which the constructor leaves uninitialised. |
| `GitCommands.WriteThroughRepo` | lib/git_salt/git_command.h:66-72 | Two commands built over one caller slot both refer to it. After a write through one command's `repo`, the caller's variable holds the new repository, and so does the other command's `repo`. |

## Left out

- `parseFileSystem`, `parseArgs`, `runCommand` and `ChromefsInit`: the header only declares them. Their bodies mount PPAPI file systems and call libgit2, and they are not part of this model.
- `GitClone`, `GitCommit` and `GitCurrentBranch` add no state. Their constructors pass their arguments unchanged to `GitCommand`'s constructor, which models them. Virtual dispatch on the command's dynamic type is not modelled.
- `GitSaltInstance` and the message transport are external collaborators. The instance is an empty class here, used only for its identity.
- The `error` field is left out. The constructor leaves it uninitialised, and nothing in this header reads or writes it.
- Ownership, lifetime and sharing of the `git_repository*` across commands and threads are left out. The header sets no policy for them.
- `pp::Var` values that are doubles carry no number in the model, because floating point is not modelled. Objects, arrays, dictionaries, array buffers and resources are one case, `Other`, because the extractors only test for string and integer.
- `pp::VarDictionary` is a reference-counted handle. Copying one shares the underlying dictionary. The model treats it as a value, which is sound here because the extractors only read it.
- This header does not define a value for `flags`. The `GitGetBranches` constructor (lines 123-127) leaves it uninitialised. `GitGetBranches::parseArgs` (line 129) is only declared, so whatever it sets is not part of this model.
- `parseString` and `parseInt` return only 0 or 1 (lines 27, 30, 38, 41), and neither distinguishes why a field failed. The return values of `parseArgs` and `runCommand` cannot be seen, because those functions are only declared (lines 74-75, 87, 101, 113-115, 129-131).
- The model does not cover a null `const char*` name. An unterminated buffer is undefined behaviour in C, so the extractors require a NUL in the buffer.
- Strings are sequences of Dafny `char`s. A `const char*` and a `std::string` hold UTF-8 bytes, and neither their encoding nor the UTF-8 validity of a name is modelled.
- The model does not cover a null `int* option` in `parseInt`, which line 40 would dereference on success. The out-parameter is an in/out value, which cannot be null.
- `pp::Var::AsString` and `pp::Var::AsInt` are modelled only on the type their guard admits. Their fallback results for other types are not modelled.
