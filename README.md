# GoSFTPtoS3 in Dafny

GoSFTPtoS3 mirrors a folder of an SFTP server into an S3 bucket. This project
models the policy layer of its `main.go` and proves what that layer promises:

- **Configuration** (`conf.dfy`, module `Connection`).
  - `SFTPConf.Validate` rejects a blank host, a blank user, or a blank
    password together with a blank private key, in that order.
  - Otherwise it repairs the receiver in place: an invalid port becomes 22
    and a zero timeout becomes 60.
  - `NewConn` validates a copy of the configuration. It appends each missing
    default key-exchange algorithm to the caller's list and chooses the SSH
    authentication method: the private key first, then user and password,
    and otherwise a panic.
  - The model proves that the panic can never be reached once `Validate`
    has passed.
- **Ignore filter and rename** (`mirror.dfy`, module `Mirror`).
  - `isIgnore` is a case-insensitive substring test against a list of
    strings.
  - `RenameFile` drops the first `/`-separated segment of a path.
- **Transfer** (`mirror.dfy`).
  - `PutToS3` walks a remote folder. It skips:
    - entries for which the walker reports an error;
    - the folder itself;
    - names whose base does not start with one of the prefixes;
    - paths matched by the ignore list.
  - It recurses into directories, and copies each remaining file into the
    bucket under `renameFile(path)`.
  - It lists the files copied at its own level. Any error ends the whole
    call with no list.
- **Helpers** (`goutils.dfy`, module `GoUtils`) spell out the library
  helpers the code relies on (GoGPUtils and the Go standard library).

The walk is an input. Each entry carries its path, its directory flag, its
walker-error flag and the walk that a recursive call rooted at that entry
would see. The SFTP fetch, the object store's refusals, the private-key
parser and the rename function are parameters. `PutToS3` is a recursive
method that updates an `ObjectStore` object. Its contract equates its result
and the new store contents with the function `Run`, and the lemmas about
`Run` state what the transfer does.

The recursive call at main.go:83 is modelled as written:
- it passes `prefix` in the position of `ignores` and `ignores` in the
  position of `prefix`;
- it discards the list that the recursive call returns.

So inside a subfolder the ignore strings become required name prefixes,
and the prefixes become ignore strings. `SwappedListsInSubfolder` shows
this on a concrete walk. The library's walker descends into subfolders
itself, so the outer walk also yields the files of the subfolder `root/a`.
With no prefixes and the ignore list `["tmp"]`:
- the outer walk skips `root/tmpfile` and `root/a/tmp.log`, whose paths
  contain "tmp";
- the outer walk copies and lists `root/a/x.txt`;
- the recursive call on `root/a` copies `root/a/tmp.log` after all, because
  there "tmp" is a required prefix and nothing is ignored;
- that copy is not listed.

## Model

| member | source | states |
|---|---|---|
| Connection.Validated | main.go:103-121 | Each of the three rejections happens exactly when its field is blank and the earlier checks passed. An accepted configuration keeps host, user, password and key. Its port is valid and equals the old one exactly when the old one was valid, and is 22 otherwise. Its timeout is non-zero and equals the old one exactly when the old one was non-zero, and is 60 otherwise. |
| Connection.ValidatedIdempotent | main.go:103-121 | Validating an accepted configuration again accepts it unchanged. |
| Connection.SFTPConf.Validate | main.go:103-121 | The method returns an error exactly when `Validated` rejects the old state, and then changes nothing. On success the new fields are `Validated`'s result; only port and timeout may be written. |
| Connection.ChooseAuth | main.go:146-157 | A non-blank private key always decides: the public-key method, or the parser's error. The password method is chosen exactly when the key is blank and password and user are not. The panic happens exactly when the key is blank and password or user is blank. |
| Connection.ValidatedNeverPanics | main.go:103-157 | After a successful validation the authentication choice never panics. |
| Connection.MergeKeyExchanges | main.go:138-143 | The caller's list is an unchanged prefix and every default is in the result. Every appended algorithm is a default that was not in the caller's list, no algorithm is appended twice, and at most one entry is added per default. |
| Connection.SFTPConf.NewConn | main.go:133-166 | The call never panics. It fails with the validation error exactly when validation fails, and with a key-parse error exactly when the key is non-blank and does not parse; that error carries the parser's own error unchanged. The dial parameters carry the validated host, port, user and timeout. The key is used exactly when it is non-blank, with the signer the parser returned for it. The key-exchange list starts with the caller's list and contains every default. Each appended algorithm is a default missing from the caller's list, and none is appended twice. |
| Mirror.IsIgnore | main.go:34-41 | Returns true exactly when some ignore string, lower-cased, occurs in the lower-cased path. |
| Mirror.NoIgnoresIgnoresNothing | main.go:34-41 | An empty ignore list ignores no path. |
| Mirror.EmptyIgnoreMatchesAll | main.go:34-41 | An empty string in the ignore list ignores every path. |
| Mirror.IgnoredIgnoresCase | main.go:36 | The ignore decision is the same for a path and its lower-cased form. |
| Mirror.RenameFileDropsFirstSegment | main.go:124-130 | For a separator-free first segment, `first/rest` is renamed to `rest`, whatever `rest` holds. |
| Mirror.RenameFileAfterFirstSlash | main.go:124-130 | A path is renamed to everything after its first separator. |
| Mirror.RenameFileNoSeparator | main.go:127-130 | A path without a separator is renamed to the empty string. |
| Mirror.RenameFileExample | main.go:124-126 | `first_folder/second_folder/file_name.txt` becomes `second_folder/file_name.txt`. |
| Mirror.ObjectStore.PutObject | main.go:94 | The store's own refusal decides the error. Without an error the body is stored under (bucket, key); with one the store is unchanged. |
| Mirror.PutToS3 | main.go:57-101 | The result and the new store contents are those of `Run` with the name test `NameFilter`, started at the first entry with an empty list and the old store. |
| Mirror.RunListsTopLevelFiles | main.go:57-101 | On success the returned list is exactly the admitted file entries of the call's own walk, in walk order. Files copied only by a recursive call are not listed. |
| Mirror.TopFilesAreAdmitted | main.go:60-97 | Every listed path is a file entry of this level. It carries no walker error, is not the root, and passes the name test with this level's lists. |
| Mirror.RunKeepsKeys | main.go:57-101 | No object is ever removed from the store. |
| Mirror.RunStoresOnlyReachedFiles | main.go:83-94 | Every new or changed object belongs to a file that the walk reaches through admitted entries, with the lists swapped at each descent. It lies under that file's renamed key and holds the file's fetched bytes. |
| Mirror.RunStoresEveryReachedFile | main.go:57-101 | On success, every file reached through admitted entries was fetched without error and its write was not refused. It has an object under its renamed key. A call that succeeds met no failing file. |
| Mirror.RunFailureCause | main.go:83-96 | Every error comes from a reached file whose fetch failed with it, or whose store write was refused with it. `RunIsCopyAll` and `CopyAllFailsFast` say which file: the first failing one in walk order. |
| Mirror.RunIsCopyAll | main.go:57-101 | The transfer is fail-fast: its store is that of copying the reached files one by one in walk order and stopping at the first failed fetch or refused write, and it fails exactly when that sequence of copies fails, with the same error. |
| Mirror.CopyAllFailsFast | main.go:84-96 | A failed sequence of copies failed at one file: every file before it was copied, no file after it was written, and that file's fetch failed with the error or its write was refused with it. |
| Mirror.SwappedListsInSubfolder | main.go:57-83 | With ignore list `["tmp"]` and no prefixes, the example walk stores `root/a/x.txt` and `root/a/tmp.log`. It returns `["root/a/x.txt"]`: the outer walk ignores `tmp.log`, but the recursive call on `root/a` copies it. |
| GoUtils.Split | main.go:128 | Splitting on `/` gives at least one segment. No segment holds a separator, and joining the segments with `/` gives the input back. |
| GoUtils.SplitJoin | main.go:128-129 | Splitting the `/`-join of separator-free segments gives those segments back. |
| GoUtils.Base | main.go:71 | The base name is never empty. It is `/` or holds no separator. |
| GoUtils.BaseOfChild | main.go:71 | The base name of `dir/name` is `name` when `name` is a plain element. |
| GoUtils.ContainsIffOccurs | main.go:36 | The substring test holds exactly when the substring occurs at some position. |

## Left out

- SSH dialing, the host-key callback, the conversion of the timeout to a
  `time.Duration`, `net.JoinHostPort` and `sftp.NewClient`
  (main.go:159-178) are network and foreign-library calls. `NewConn` stops
  at the parameters it would hand to the dialer.
- `ssh.ParsePrivateKey` is a parameter that may fail. Key formats are not
  modelled.
- `Get` and `Put` streaming with progress bars, and the thin wrappers
  `CreateDirectory`, `DeleteFile`, `DeleteDirectory`, `List`, `Exist`,
  `IsDir`, `IsFile`, `Rename` and `Close` (main.go:181-304), are foreign I/O
  and resource release.
- The remote walker's own semantics are not modelled. The walk is a finite
  tree given as input. The library's walker descends into subfolders
  itself, so a subfolder's files are visited both by the outer walk and by
  the recursive call. The model does not require the input walks to agree
  with each other, and makes no claim about such duplicate visits.
- The SFTP fetch is a fixed function of the path, so repeated visits of one
  file fetch the same bytes or fail with the same error.
- `path.Join(currentPath)` with a single argument is taken to return its
  argument unchanged. Path cleaning is not modelled.
- `s3utils.PutObject` is modelled as a map update. Whether it fails, and
  with which error, is a fixed function of the object key, so repeated
  writes to one key get the same answer.
- Logging (main.go:62, main.go:93, main.go:168, main.go:173) is not modelled.
- The definitions of the GoGPUtils helpers are not in the repository, so
  they are written out as assumptions:
  - `stringutils.IsBlank`: empty, or only ASCII whitespace;
  - `httputils.ValidatePort`: 1 to 65535;
  - `stringutils.HasPrefixArray`: an empty list accepts everything;
  - `stringutils.JoinSeparator`: joins with `/`;
  - `arrayutils.InStrings`: membership.
- `strings.ToLower` is modelled on ASCII letters only. Unicode case mapping
  is not modelled.
- Go's distinction between a nil slice and an empty slice is not modelled.
  A successful call with no files returns the empty list.
- MergeKeyExchanges: does not state that the appended defaults keep the
  order of the default list. The list holds a single algorithm.
- example/main.go is not part of this model. It is demonstration code that
  calls a different `PutToS3` signature.
