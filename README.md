# bdd100k annotation utilities, modelled in Dafny

This project models `bdd100k/common/utils.py`, the three helpers that the BDD100K
label conversion pipeline uses before converting anything:

- `list_files` lists a folder of folders: one list per sub-folder, in ascending
  name order, each holding that sub-folder's entries in ascending name order,
  joined onto the sub-folder's path.
- `read` loads the annotations. A folder gives one batch per `*.json` file. A
  single JSON file holding an object gives `[[object]]`. A single JSON file holding
  a list led by an object gives `[list]`. The batches are then stably sorted by
  `str(batch[0]["video_name"])` when the first record of the first batch has a
  `video_name`.
- `init` builds the COCO category table. It holds the eight base classes, then
  "traffic light" and "traffic sign" in mode "det", then an optional "ignored"
  class. It also builds the fixed ignore map and the derived name-to-id dictionary.

Modules:

- `Common` (common.dfy): the Python exceptions raised, and a `Result` type.
- `Strings` (strings.dfy): Python's `<=`, `endswith` and substring `in` on `str`.
- `Sorting` (sorting.dfy): Python's `sorted(xs, key=...)` as a stable insertion
  sort. It is proved to return an ordered permutation that keeps the input order
  among equal keys.
- `Listing` (listing.dfy): `list_files`, an imperative method over a directory
  snapshot.
- `Loader` (loader.dfy): `read`, pure functions over a `Json` datatype.
- `Registry` (registry.dfy): `init`, a method that grows the table step by step.

Behaviours of the code that are easy to miss:

- A single file is accepted when its path ends in `json`, with or without a dot,
  because the code tests `endswith("json")`. So `labelsjson` is read
  (`Loader.ReadObjectFile` holds for any such path).
- In the folder case, each file's value is used as a batch without wrapping. A
  folder whose first file holds a bare object therefore fails with `KeyError` at
  `outputs[0][0]`. It does not come back sorted by `video_name`
  (`Loader.ReadFolderOfObjects`).
- A single file holding a list that is not led by an object is not an error. It
  is returned as the list of batches, like a folder (`Loader.ReadNestedListFile`).
  A file holding a non-empty string is returned as that string
  (`Loader.ReadStringFile`).
- An empty folder or an empty list fails with `IndexError`.

## Model

| member | source | states |
|---|---|---|
| `Sorting.SortBy` | bdd100k/common/utils.py:41 | `sorted(xs, key=k)` returns a stable sort of `xs`. It keeps the same length and the same multiset of elements. The keys ascend in Python string order, and for every key value the elements with that key keep their input order. |
| `Listing.ListFiles` | bdd100k/common/utils.py:13-24 | Fails with `AssertionError` exactly when the root, or some child of it, is not a directory. Otherwise it returns one list per child, in ascending child-name order. Each list is that child's entry names in ascending order, each joined onto `root/child`. |
| `Registry.NameToId` | bdd100k/common/utils.py:90-92 | The keys of the dict comprehension are exactly the table's names. Each name is bound to the id of its last entry. |
| `Registry.AttrIdDictAgrees` | bdd100k/common/utils.py:90-92 | For a table with unique names, `attr_id_dict[e.name] == e.id` for every entry `e`, and the dictionary has exactly one key per entry. |
| `Registry.BaseTable` | bdd100k/common/utils.py:50-59 | The eight base categories are numbered 1 to 8 in order, have unique names, and include no "ignored" entry. |
| `Registry.DetectionTable` | bdd100k/common/utils.py:60-72 | Adding traffic light and traffic sign to the base eight gives ids 1 to 10 in order, still with unique names and no "ignored" entry. |
| `Registry.AppendIgnored` | bdd100k/common/utils.py:74-81 | Appending ("none", previous count + 1, "ignored") to a table with contiguous ids and unique names, none of them "ignored", keeps ids contiguous and names unique. |
| `Registry.Init` | bdd100k/common/utils.py:45-93 | Mode "det" yields 10 categories and any other mode yields the base 8, with no error. `ignore_as_class` appends "ignored" last, with id = previous count + 1. Ids are contiguous from 1 and names are unique. The ignore map is always the same three entries. `attr_id_dict` agrees with the table, one key per entry. |
| `Loader.Read` | bdd100k/common/utils.py:29-39 | A path that is neither a directory nor a file whose name ends in "json" raises `TypeError`. |
| `Loader.BatchKeyDefined` | bdd100k/common/utils.py:41 | The sort key `str(batch[0]["video_name"])` can be computed exactly when the batch is a list whose first item is an object with a `video_name` field. The key is then `str` of that field. |
| `Loader.AllKeysDefined` | bdd100k/common/utils.py:41 | `sorted` computes the keys front to back. It succeeds exactly when every batch has a key. Otherwise it raises the error of the first batch without one. |
| `Loader.ReadOrdersByVideoName` | bdd100k/common/utils.py:40-42 | When `outputs[0][0]` contains `video_name`, reading a folder succeeds exactly when every batch is led by a record with a `video_name`. The result is then a stable sort of the batches by `str` of that name: ordered, a permutation, and equal-named batches in their original order. |
| `Loader.ReadKeepsOrderWithoutVideoName` | bdd100k/common/utils.py:40-42 | When `outputs[0][0]` exists and has no `video_name`, the folder's batches come back unchanged and in their original order. |
| `Loader.ReadEmptyFolder` | bdd100k/common/utils.py:29-40 | An empty folder raises `IndexError` at `outputs[0]`. |
| `Loader.ReadFolderOfObjects` | bdd100k/common/utils.py:29-40 | Folder documents are not wrapped. A folder whose first document is an object raises `KeyError` at `outputs[0][0]`. |
| `Loader.ReadObjectFile` | bdd100k/common/utils.py:32-35 | A JSON file holding an object `d` reads as `[[d]]`, whatever its fields, including `video_name`. |
| `Loader.ReadListFile` | bdd100k/common/utils.py:32-37 | A JSON file holding a list led by an object reads as `[list]`. |
| `Loader.ReadEmptyListFile` | bdd100k/common/utils.py:36 | A JSON file holding an empty list raises `IndexError`. |
| `Loader.ReadNestedListFile` | bdd100k/common/utils.py:32-42 | A JSON file holding a non-empty list not led by an object reads exactly as a folder whose documents are the list's items. |
| `Loader.ReadStringFile` | bdd100k/common/utils.py:32-42 | A JSON file holding a non-empty string is returned as that string, because the sort test fails on a one-character string. |

## Left out

- Filesystem calls (`os.listdir`, `osp.isdir`, `osp.isfile`, `glob.glob`, `open`) are
  not modelled. They become snapshots passed in: a `Listing.Root`, and a
  `Loader.Input` whose folder case holds the parsed values of the `*.json` files in
  the order `glob` returned them. Which names `glob` matches (hidden files, folders
  named `*.json`) is not modelled.
- JSON parsing (`json.load`) and malformed-JSON errors are left out. Parsed values
  are inputs.
- The file handles that `open` leaves unclosed are resource handling, not logic,
  and are left out.
- Python's `str()` of a JSON value, used for the sort key, is not modelled. It is
  the parameter `render`. Every property holds for any `render`.
- `osp.join` is modelled as `dir + "/" + name`. Its treatment of absolute names and
  trailing separators is not modelled.
- Listing.ListFiles: assumes Python's `assert` statements run (`__debug__` is true). Under `python -O` they are removed. A root or child that is not a directory then fails inside `os.listdir` with `NotADirectoryError` or `FileNotFoundError` instead of `AssertionError`.
- Only the `"categories"` key of the `defaultdict` returned by `init` is modelled.
- `Listing.ListFiles` sorts the `(name, kind)` pairs of the root by name. Python
  sorts the names and then looks up each name. The two agree because a directory
  never reports the same name twice.
