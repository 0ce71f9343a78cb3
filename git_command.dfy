/**
 The state a git command object holds once constructed. `GitCommand` binds the
 plugin instance, the request's arguments and its subject, and keeps `repo` as
 a C++ reference to the caller's `git_repository*` variable, so every write
 through `repo` lands in that variable. Here that variable is a
 `RepositorySlot` object the command shares with its creator; `repo` is a
 `const` field because a reference member cannot be re-seated.

 Dafny has no class inheritance, so `GitGetBranches` holds its `GitCommand`
 base sub-object in `command` beside the one field it adds, `flags`.
 `GitClone`, `GitCommit` and `GitCurrentBranch` add no state: their
 constructors forward their arguments unchanged to `GitCommand`'s.
 */
module GitCommands {
  import opened PpVar

  /** The plugin instance that issues commands and receives their replies. */
  class GitSaltInstance { }

  /** A `git_repository*` value: null, or one opened repository. */
  datatype RepositoryPtr = NullRepository | Repository(id: nat)

  /** The caller's `git_repository*` variable, to which a command's `repo` refers. */
  class RepositorySlot {
    var ptr: RepositoryPtr

    constructor (ptr: RepositoryPtr)
      ensures this.ptr == ptr
    {
      this.ptr := ptr;
    }
  }

  /** A `pp::FileSystem` resource handle; a default-constructed one is null. */
  datatype FileSystem = NullFileSystem | FileSystemResource(id: nat)

  class GitCommand {
    var gitSalt: GitSaltInstance?
    var args: VarDictionary
    var fileSystem: FileSystem
    var fullPath: string
    var url: string
    var subject: string
    const repo: RepositorySlot

    /**
     Binds `gitSalt`, `args` and `subject` to the arguments and makes `repo`
     refer to the caller's slot; the remaining members are default-constructed
     (a null file system, empty `fullPath` and `url`). The caller's slot keeps
     its value.
     */
    constructor (gitSalt: GitSaltInstance?, subject: string, args: VarDictionary,
                 repository: RepositorySlot)
      ensures this.gitSalt == gitSalt && this.subject == subject && this.args == args
      ensures repo == repository
      ensures fileSystem == NullFileSystem && fullPath == "" && url == ""
      ensures repository.ptr == old(repository.ptr)
    {
      this.gitSalt := gitSalt;
      this.args := args;
      this.subject := subject;
      this.repo := repository;
      fileSystem := NullFileSystem;
      fullPath := "";
      url := "";
    }
  }

  class GitGetBranches {
    const command: GitCommand
    var flags: int32

    /**
     Constructs the `GitCommand` base from the same arguments; `flags` is not
     initialised, so nothing is promised about it.
     */
    constructor (gitSalt: GitSaltInstance?, subject: string, args: VarDictionary,
                 repository: RepositorySlot)
      ensures fresh(command)
      ensures command.gitSalt == gitSalt && command.subject == subject && command.args == args
      ensures command.repo == repository
      ensures command.fileSystem == NullFileSystem && command.fullPath == "" && command.url == ""
      ensures repository.ptr == old(repository.ptr)
    {
      command := new GitCommand(gitSalt, subject, args, repository);
    }
  }

  /**
   Two commands constructed over one repository slot both refer to it, and a
   write through one command's `repo` (as a clone that opens a repository
   makes) is what the caller and the other command then read.
   */
  method WriteThroughRepo(gitSalt: GitSaltInstance?, cloneSubject: string, branchesSubject: string,
                          args: VarDictionary, slot: RepositorySlot, newRepo: RepositoryPtr)
    returns (clone: GitCommand, branches: GitGetBranches)
    modifies slot
    ensures fresh(clone) && fresh(branches)
    ensures clone.repo == slot && branches.command.repo == slot
    ensures slot.ptr == newRepo && branches.command.repo.ptr == newRepo
  {
    clone := new GitCommand(gitSalt, cloneSubject, args, slot);
    branches := new GitGetBranches(gitSalt, branchesSubject, args, slot);
    clone.repo.ptr := newRepo;
  }
}
