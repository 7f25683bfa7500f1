# EDFS emulator: command surface and tag-text serialiser

A Dafny model of `homework-2/edfs.py`, an HDFS-like command-line emulator meant
to keep a directory tree in a Firebase document store. At this revision the
module has two pieces with real logic, and both are modelled here:

- `dict2xml`, which turns a JSON-like value (dict, list or scalar) into
  indented tag text (module `Xml`, file `xml.dfy`). `Xml.Render` is the
  serialiser as a recursive function and serves as the specification.
  `Xml.Dict2Xml` is the same procedure written the way the source writes it,
  with a local list `res`, append loops and a newline join, and it is proved
  equal to `Render`. The closing line of a dict entry is written exactly like
  its opening line, `<tag>` with no `/`, as the source does.
- The command surface of `HDFSEmulator` (module `Edfs`, file `edfs.dfy`):
  - `parse_args`;
  - the constructor, which checks that the command starts with `-` and builds
    the fixed six-entry command table;
  - `execute`, which dispatches through that table and reports an unknown
    command;
  - the path check in `mkdir`.

  Python's exceptions become the `Edfs.Error` datatype and a `Result`. What a
  command does outside the object is returned as an `Effect`: the lines it
  prints and the library calls it attempts.

The emulator's intended filesystem semantics are absent from the code at this
revision, and the model follows the code. Those semantics would be a tree in
the remote store with existence checks, emptiness checks and parent checks.
In the code, `ls`, `rmdir`, `create`, `rm` and `export` have empty bodies, so
executing them does nothing. `mkdir` checks its path and then calls
the library function `requests.put()` with no arguments. That call raises
`TypeError` for the missing URL before any request is sent, and `mkdir`
catches and reports the exception; the store client `FirebaseClient` is never
called. The model records the attempted call as `RequestsPut` and makes the
message of the exception a parameter (`callFailure`).

## Model

| member | source | states |
|---|---|---|
| `Xml.Dict2Xml` | homework-2/edfs.py:88-114 | The loop-and-append procedure returns exactly the recursive rendering `Render` for every value and padding. |
| `Xml.ScalarLine` | homework-2/edfs.py:114 | A value that is neither dict nor list renders as the padding followed by its text. No newline is added. |
| `Xml.EmptyContainers` | homework-2/edfs.py:98-112 | An empty dict and an empty list both render to the empty string, whatever the padding. |
| `Xml.DictLines` | homework-2/edfs.py:101-107 | A dict renders as the newline-join of 3 lines per key, in iteration order: the padded opening line `<k>`, the value rendered with one more leading tab, and a closing line identical to the opening line. |
| `Xml.OneKeyDict` | homework-2/edfs.py:102-107 | A one-key dict renders as its opening line `<k>`, a newline, the value rendered one tab deeper, a newline, and the same `<k>` line again. |
| `Xml.ListLines` | homework-2/edfs.py:109-112 | A list renders as the newline-join of its elements' renderings, in list order, at the same padding, with no wrapper line. |
| `Xml.SingletonList` | homework-2/edfs.py:109-112 | A one-element list renders exactly as its element, so list nesting adds no indentation. |
| `Xml.NestedExample` | homework-2/edfs.py:101-114 | `{"a": {"b": 1}}` renders as the newline-join of 5 lines: `<a>`, tab `<b>`, two tabs `1`, tab `<b>`, `<a>`. |
| `Xml.RenderLayout` | homework-2/edfs.py:98-114 | The rendering is the newline-join of a structural line sequence. That sequence holds opening and closing lines per key, one line per scalar, and one blank line per empty container. |
| `Xml.LeafIndentation` | homework-2/edfs.py:101-112 | Each scalar's line, in document order, carries the caller's padding plus one tab per enclosing dict. With the default padding, a scalar at dict depth d is preceded by exactly d tabs; lists add none. |
| `Xml.NoSlashAdded` | homework-2/edfs.py:104-106 | The renderer emits no `/` of its own. If no key, scalar or padding contains `/`, neither does the rendering, so closing lines are never `</k>`. |
| `Edfs.ParseArgs` | homework-2/edfs.py:117-127 | Argv positions 0, 1 and 2 become `file`, `command` and `action_item`. The parse succeeds exactly when there are at least 3 arguments; otherwise it raises `IndexError`. |
| `Edfs.ParseArgsIgnoresExtra` | homework-2/edfs.py:126 | Arguments after position 2 never change the parse. |
| `Edfs.CommandOf` | homework-2/edfs.py:44-51 | Each handler is registered in the table under its command string. |
| `Edfs.FunctionListIsOneToOne` | homework-2/edfs.py:44-51 | The table's keys are exactly `-ls`, `-mkdir`, `-rmdir`, `-create`, `-rm` and `-export`, each maps back to its own handler, and every key passes the constructor's `-` check. |
| `Edfs.VerifyInputCommand` | homework-2/edfs.py:55-56 | The check passes exactly when the command starts with `-`. Otherwise it raises `AssertionError("Command must start with -")`. |
| `Edfs.HDFSEmulator.constructor` | homework-2/edfs.py:32-53 | Once the check passes, the object holds the command, the action item, the fixed six-entry table and the base URI that the `FirebaseClient` constructor sets. |
| `Edfs.HDFSEmulator.New` | homework-2/edfs.py:32-56 | Construction fails with the assertion exactly when the command does not start with `-`, and then no object or table exists. Otherwise it yields a fresh valid emulator holding the given command and path. |
| `Edfs.HDFSEmulator.Mkdir` | homework-2/edfs.py:61-66 | A path not starting with `/` prints `Error: Path must start with /` and attempts no call. Otherwise one `requests.put()` call is attempted; it fails before sending anything, and its failure is printed. |
| `Edfs.HDFSEmulator.Execute` | homework-2/edfs.py:80-85 | An unknown command prints `Command not found: <cmd>` and `Error: '<cmd>'` and runs no handler. The five stub handlers do nothing, and `-mkdir` does what `Mkdir` does. A `requests.put()` call is attempted exactly for `-mkdir` with a path starting with `/`. |

## Left out

- The Firebase client (`FirebaseClient.put/post/get/delete`, homework-2/edfs.py:18-28) has stub bodies and is never called. The `requests.put()` call in `mkdir` sends nothing, because it lacks its URL and raises `TypeError`. Only whether the call is attempted is modelled. Its exception message is a parameter, not Python's wording.
- Assertions are assumed to be enabled. Under `python -O` the `assert` statements at homework-2/edfs.py:56 and 63 are removed. A command without `-` would then be accepted and reported as not found by `execute`, and a path without `/` would reach `requests.put()`. `HDFSEmulator.New`, `HDFSEmulator.Mkdir` and `HDFSEmulator.Execute` state the behaviour with assertions on.
- Recursion-depth errors and cyclic values are not modelled. `dict2xml` recurses once per nested dict or list (homework-2/edfs.py:105, 111). A value nested deeper than the interpreter's recursion limit, or a dict or list that contains itself, raises `RecursionError`. A `Value` is finite and `Render` always returns.
- `ls`, `rmdir`, `create`, `rm` and `export` (homework-2/edfs.py:58-59, 68-78) have empty bodies. They are modelled as doing nothing when dispatched; there is no tree, existence check or emptiness rule in the code to model.
- Python's `str()` of arbitrary objects in `dict2xml`'s scalar case, and of non-string dict keys: scalars and keys are carried as the text `str()` gives them. This includes instances of dict or list subclasses, which `type(obj) is dict` sends to the scalar case.
- Edfs.Str: a `KeyError` is shown as the key in single quotes. Python's `repr` quoting and escaping of keys that contain quotes, backslashes or unprintable characters is not modelled.
- The `__main__` block (reading `sys.argv`, then constructing and executing) is process glue. Its three steps are `ParseArgs`, `HDFSEmulator.New` and `HDFSEmulator.Execute`.
- homework-1, homework-3 and exam-solutions are not part of this model. They are pandas, SQLAlchemy/lxml and PySpark scripts with file and network I/O and floating-point statistics.
