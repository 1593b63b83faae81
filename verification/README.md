# IOMMU group and DMI hardware parsers, modelled in Dafny

The tool collects the identity of a host's hardware (motherboard, BIOS,
chassis and product, read from the DMI files of sysfs) and the IOMMU grouping
of its PCI devices, read from `lspci -nnvmm`, and submits the resulting
record. This project models the two parsers at its core:

- `parse_hardware` (module `Hardware`) fills a record of default values from
  the DMI files, rewrites the BIOS date from `MM/DD/YYYY` to `YYYY-MM-DD`, and
  relabels the board of a laptop. It is modelled as a method whose helper
  `FillDefaults` keeps the source's two nested loops over the record. The loops are proved against a
  specification function `FillFrom`. The DMI directory is a parameter: a map
  from file name to content, where an absent name is a missing file.
- `parse_lspci_output` (module `Lspci`) reads the `Key:\tValue` records of
  `lspci -nnvmm` line by line. It files each device under the group whose
  `iommugroup` matches, or opens a new group. It is modelled as a method on a
  `Structure` class whose `groups` field it updates in place. The method is
  proved against a line-by-line specification function `Run`.

Supporting modules:
- `PyStr` holds the Python string built-ins the parsers use: `split`,
  `replace`, `lower`, `strip`, `startswith` and `endswith`.
- `Dates` holds `strptime("%m/%d/%Y")` followed by `strftime("%Y-%m-%d")`.
- `Records` holds insertion-ordered dictionaries.
- `LspciFacts` holds the properties of the lspci parser that relate several
  calls or whole runs of lines.

Where the tool's written description and its code differ, the model follows
the code:
- `Slot:` is a field of the device, not of the group. Only keys that begin
  with `iommugroup` go to the group (generate_data.py:141-143).
- Only keys that end in `vendor` are split into `{name, vendorid}`. The id is
  any four word or space characters in brackets, not only hex digits. A
  `device` field keeps its bracketed id (generate_data.py:146-151).
- Re-parsing is not idempotent. Running the parser again with the same text
  on the structure it returned appends every device a second time
  (`LspciFacts.ReparseDuplicates`).
- Ten DMI files are read, `bios_version` among them (generate_data.py:96-98,
  `Hardware.DefaultFilePaths`).

## Model

| member | source | states |
|---|---|---|
| PyStr.IndexOf | generate_data.py:132 | `split(":", 1)` cuts at the first colon: the index holds the character and no earlier index does |
| PyStr.SplitLines | generate_data.py:129 | `output.split("\n")`: no piece contains a newline, and joining the pieces with newlines gives back the text |
| PyStr.SplitJoinLines | generate_data.py:129 | splitting a newline join of newline-free lines gives back the lines (round trip) |
| PyStr.RemoveTabs | generate_data.py:132 | `replace("\t", "")`: no tab remains, every other character is kept, and text without tabs is unchanged; with `RemoveTabsAppend` and `RemoveTabsChar` it is the text with its tabs deleted, the rest in order |
| PyStr.RemoveTabsAppend | generate_data.py:132 | removing tabs from two joined texts joins the two texts with their tabs removed, so the order of what is kept is the order of the text |
| PyStr.RemoveTabsChar | generate_data.py:132 | one character is dropped when it is a tab and kept otherwise |
| PyStr.Lower | generate_data.py:134 | `lower()`: same length, each character folded on its own, no upper-case letter left |
| PyStr.Strip | generate_data.py:102 | `strip()`: the result is the slice of the text that follows its leading whitespace; only whitespace lies before and after that slice; the result is empty exactly when the text is all whitespace, and otherwise starts and ends with non-whitespace; already-trimmed text is unchanged |
| Records.Put | generate_data.py:153 | `dict.update`: an existing key keeps its place, a new key goes last, and no other key moves |
| Records.PutGet | generate_data.py:153 | after the update the key reads the new value and every other key reads as before |
| Records.PutUnique | generate_data.py:153 | the update never duplicates a key |
| Records.GetPresent | generate_data.py:111 | `dict.get` finds a value exactly when the key is present |
| Dates.DaysInMonth | generate_data.py:104 | between 28 and 31 days; 29 exactly for February of a leap year |
| Dates.ValidDate | generate_data.py:104 | a date `datetime` accepts has a day from 1 to 31; February 29 only in a leap year; a 31st only in January, March, May, July, August, October or December |
| Dates.Pad2 | generate_data.py:105 | `%m`/`%d` on output: two digits whose value is the number |
| Dates.Pad4 | generate_data.py:105 | `%Y` on output: four digits whose value is the number |
| Dates.FormatIso | generate_data.py:105 | `strftime("%Y-%m-%d")` is ten characters: four digits, a dash, two digits, a dash, two digits |
| Dates.MonthField | generate_data.py:104 | an accepted `%m` field is a month from 1 to 12; `MonthFieldSpellings` gives the accepted texts |
| Dates.DayField | generate_data.py:104 | an accepted `%d` field is a day from 1 to 31; `DayFieldSpellings` gives the accepted texts |
| Dates.DigitSpellings | generate_data.py:104 | the one- or two-digit texts worth a number from 1 to 99 are its zero-padded spelling and, below 10, its single digit; nothing else |
| Dates.MonthFieldSpellings | generate_data.py:104 | `%m` reads month m exactly when m is 1 to 12 and the text is m zero-padded, or m's single digit when m is below 10 |
| Dates.DayFieldSpellings | generate_data.py:104 | `%d` reads day d exactly when d is 1 to 31 and the text is d zero-padded or, when d is below 10, d's single digit with or without a space before it |
| Dates.YearField | generate_data.py:104 | `%Y` accepts a field exactly when it is four digits, and `%Y` writes the year back unchanged |
| Dates.ParseMdy | generate_data.py:104 | a parsed date is a valid calendar date, and its year is the last four characters, after a slash |
| Dates.ConvertDate | generate_data.py:103-105 | converts exactly when `strptime` accepts the text; the result is ten characters, digits with dashes at 4 and 7, and it reads back as the date `strptime` parsed |
| Dates.IsoReadsBack | generate_data.py:105 | the `YYYY-MM-DD` text reads back as the same date (round trip) |
| Dates.ParseMdyFields | generate_data.py:104 | `strptime` on three slash-separated fields succeeds exactly when each field is accepted and the date is valid |
| Dates.ConvertDateIffValid | generate_data.py:103-105 | a zero-padded `MM/DD/YYYY` text converts exactly when it names a valid date, and then to its ISO spelling |
| Dates.ConvertDateExample | generate_data.py:103-105 | `"01/15/2023"` becomes `"2023-01-15"` |
| Dates.ConvertDateShortForm | generate_data.py:103-105 | the single-digit form `"1/5/2023"` becomes `"2023-01-05"` |
| Dates.ShortFields | generate_data.py:104 | `%m` reads `"1"` as January and `%d` reads `"5"` as the fifth |
| Dates.ConvertDateLeapDay | generate_data.py:103-105 | `"02/29/2024"` becomes `"2024-02-29"` |
| Dates.ConvertDateRejectsFeb29 | generate_data.py:104 | `"02/29/2023"` is rejected |
| Dates.ConvertDateRejectsMonth13 | generate_data.py:104 | `"13/01/2023"` is rejected |
| Dates.ConvertDateRejectsIso | generate_data.py:104 | a date already in ISO form is rejected |
| Hardware.ParseHardware | generate_data.py:68-119 | the fill loops and the laptop relabel return what `ParseHardwareSpec` specifies, including its errors |
| Hardware.FillDefaults | generate_data.py:96-109 | the nested loops over the defaults return what `FillFrom` specifies from the first field on, stopping at the first error |
| Hardware.ParseHardwareSpec | generate_data.py:68-119 | a successful parse has no groups and two or four sections, the board first and the BIOS second |
| Hardware.FillValue | generate_data.py:98-109 | defines what one field becomes: its lemmas `MissingKeepsValue`, `PlainValue`, `VendorValue`, `DateValue` and `OnlyDatesFail` state each case |
| Hardware.MissingKeepsValue | generate_data.py:100-102 | a field whose file is missing or blank keeps its value |
| Hardware.FillFrom | generate_data.py:96-109 | a successful fill has as many sections as the record it fills; `FillFromOk` and `FillFromErr` state the rest |
| Hardware.FillFromAt | generate_data.py:96-109 | after a successful fill, every section keeps its name and number of fields, every field its key; a field already visited is unchanged and a later one holds what its file yields |
| Hardware.FailsAtSet | generate_data.py:96-109 | a field whose file yields a value is not a field that fails |
| Hardware.FailsAtSame | generate_data.py:96-109 | whether a field fails depends only on its section's name and on the field itself, so updating other fields does not change it |
| Hardware.ChassisOverride | generate_data.py:111-117 | a laptop keeps two sections, the board still named `board` and the BIOS section untouched; any other record is unchanged |
| Hardware.OverrideKeys | generate_data.py:111-117 | on a filled record the override keeps two sections for a laptop and four otherwise, each with its default name and keys |
| Hardware.ReadField | generate_data.py:98-109 | reading one field gives the value `FillValue` specifies; nothing is stored when the file is missing or blank; the date and vendor errors are passed on |
| Hardware.RelabelLaptop | generate_data.py:111-117 | the in-place override equals `ChassisOverride` |
| Hardware.FillFromOk | generate_data.py:96-109 | a successful fill keeps the layout and the fields already visited, and gives every later field the value its file yields |
| Hardware.FillFromErr | generate_data.py:96-109 | the fill fails exactly when some field still to be visited fails |
| Hardware.DefaultVendorKeys | generate_data.py:73-93 | in the defaults, sub-records stand exactly at the keys ending in `vendor` |
| Hardware.DefaultVendor | generate_data.py:73-93 | every default vendor field is `{"name": "_none_", "vendorid": ""}` |
| Hardware.DefaultDateKey | generate_data.py:73-93 | the BIOS date is the only `date` key of the defaults |
| Hardware.FilledShaped | generate_data.py:96-109 | the filled record keeps the keys of the defaults, with sub-records where the defaults have them |
| Hardware.FilledField | generate_data.py:96-109 | each filled field holds what its file yields for it |
| Hardware.PlainFieldAt | generate_data.py:97-109 | a field of the filled defaults that is neither a date nor a vendor holds its `<section>_<key>` file's stripped content, or its default |
| Hardware.SectionFiles | generate_data.py:98 | each key of a section is mapped to the file it is read from |
| Hardware.FilePath | generate_data.py:98 | a key is read from the file of its own name exactly when it ends in `vendor`, and otherwise from `<section>_<key>` |
| Hardware.DefaultFilePaths | generate_data.py:96-98 | the files read are board_name, board_vendor, board_version, bios_date, bios_release, bios_vendor, bios_version, chassis_type, product_family and product_name, in that order |
| Hardware.PlainPath | generate_data.py:98 | a key not ending in `vendor` is read from `<section>_<key>` |
| Hardware.VendorPath | generate_data.py:98 | a key ending in `vendor` is read from the file of its own name |
| Hardware.MissingFileKeepsDefault | generate_data.py:100-102 | a missing or blank file leaves the default value in place |
| Hardware.VendorFillsName | generate_data.py:106-108 | a vendor file sets only the name of the sub-record; its vendorid stays empty |
| Hardware.VendorValue | generate_data.py:106-108 | a vendor sub-record takes the stripped file content as its name and keeps its vendorid |
| Hardware.PlainFieldFromFile | generate_data.py:102-109 | any other file replaces the default with its stripped content, and the BIOS date with its ISO spelling |
| Hardware.PlainValue | generate_data.py:98-109 | a plain field holds its file's stripped content, or its default when the file is missing or blank |
| Hardware.OnlyDatesFail | generate_data.py:103-109 | a field that is not a date cannot fail when its vendor-ness matches its value |
| Hardware.DateFieldFails | generate_data.py:103-105 | the BIOS date fails exactly when bios_date holds text that is not a valid `MM/DD/YYYY` date |
| Hardware.HardwareFailsIff | generate_data.py:68-119 | parse_hardware raises exactly when bios_date holds text that is not a valid `MM/DD/YYYY` date |
| Hardware.BiosDateIso | generate_data.py:103-105 | with a valid bios_date, the returned BIOS section holds the date in `YYYY-MM-DD` form |
| Hardware.FilledBiosDate | generate_data.py:103-105 | the filled BIOS date is the ISO spelling of bios_date |
| Hardware.DateValue | generate_data.py:103-105 | a date field read from a file holds the ISO spelling of the text |
| Hardware.ChassisType | generate_data.py:111 | the filled record counts as a laptop exactly when chassis_type reads 8, 9 or 10 |
| Hardware.ChassisValue | generate_data.py:111 | the chassis type read from the file is a laptop type exactly when the file holds 8, 9 or 10 |
| Hardware.SpecIsOverride | generate_data.py:111-119 | a successful parse is the filled record after the laptop override |
| Hardware.OverrideShape | generate_data.py:111-117 | a laptop keeps only the board, renamed with its keys in place, and the BIOS section; other machines are unchanged |
| Hardware.HardwareKeysPresent | generate_data.py:73-119 | board and BIOS always come back with all default keys; chassis and product do exactly when the machine is not a laptop; groups are empty |
| Hardware.LaptopOverride | generate_data.py:111-117 | a laptop keeps two sections and its board is named `"<product_name> (<product_family>)"`; other machines keep four sections and the board_name reading |
| Hardware.BoardNameField | generate_data.py:97-109 | the board name is board_name's content, or `__unknown__` without it |
| Hardware.ProductFields | generate_data.py:113-115 | the laptop name is built from product_name and product_family |
| Hardware.LabelFields | generate_data.py:113-115 | the laptop name is the product name, a space and the family in parentheses |
| Hardware.ProductFamily | generate_data.py:97-109 | the product family is product_family's content, or empty |
| Hardware.ProductName | generate_data.py:97-109 | the product name is product_name's content, or empty |
| Lspci.NormalizeKey | generate_data.py:134-136 | the key is the lower-cased field name, except that `class` becomes `dev_class`; it is never `class` and has no upper-case letter |
| Lspci.SplitVendor | generate_data.py:145-151 | a sub-record is made exactly for a key ending in `vendor` whose value is longer than six and ends in a bracketed four-character id; the name is the value without its last seven characters; anything else is kept as the string |
| Lspci.KeyValue | generate_data.py:132-137 | the key holds no colon, and key, colon and value rebuild the line without its tabs |
| Lspci.ReadLine | generate_data.py:130-153 | a non-empty line raises exactly when it has no colon once its tabs are removed; otherwise it leaves the groups alone and changes only the group accumulator or only the device |
| Lspci.Commit | generate_data.py:161-175 | filing a device adds one group exactly when none has its iommugroup; existing groups keep their iommugroup and attributes; afterwards some group has that iommugroup |
| Lspci.Blank | generate_data.py:154-159 | a blank line leaves no device open; with no device it changes nothing; otherwise it resets the group accumulator and never removes a group |
| Lspci.Run | generate_data.py:129-181 | reading lines never shrinks the list of groups, whether it finishes or raises |
| Lspci.ParseSpec | generate_data.py:129-181 | parsing a text never shrinks the structure's list of groups |
| Lspci.ParseLspciOutput | generate_data.py:122-181 | the groups become those `ParseSpec` specifies, updated in place; the result is the same structure, or none exactly where the source raises IndexError; the other fields are unchanged |
| LspciFacts.RunAppend | generate_data.py:129-180 | reading `a + b` is reading `a`, then `b` from where `a` stopped |
| LspciFacts.BlankTwice | generate_data.py:158-159 | a second blank line changes nothing |
| LspciFacts.BlankRunsCollapse | generate_data.py:154-159 | a run of blank lines acts as one |
| LspciFacts.TrailingFieldsNotCommitted | generate_data.py:129-153 | fields after the last blank line are never filed |
| LspciFacts.RunRaisesIff | generate_data.py:130-137 | the parse raises exactly when some line is non-empty and has no colon once its tabs are removed |
| LspciFacts.CommitPlacesDevice | generate_data.py:161-175 | a device is appended to the one group with its iommugroup, or a new group is added at the end only when none matches; other groups are untouched and no iommugroup is repeated |
| LspciFacts.SameGroupInOrder | generate_data.py:161-175 | two records committed one after the other with the same iommugroup end up, in reading order, in the same single group |
| LspciFacts.SameGroupAcrossRecords | generate_data.py:129-181 | a device committed under some iommugroup, and a later device read under the same one with any lines between: the later device goes last into the group that received the first, which is still in its place, and no iommugroup is repeated |
| LspciFacts.JoinAfterExtends | generate_data.py:161-175 | after any further parsing, a device for an existing group's iommugroup goes into that same group, after everything it held |
| LspciFacts.CommitExtends | generate_data.py:161-175 | filing a device only appends |
| LspciFacts.RunExtends | generate_data.py:129-181 | parsing never removes, reorders or shrinks an existing group |
| LspciFacts.RunKeepsDistinct | generate_data.py:161-171 | a structure without repeated iommugroups never gets one |
| LspciFacts.CommitAddsOne | generate_data.py:161-175 | filing a device adds exactly one device to the groups |
| LspciFacts.ReadOpens | generate_data.py:130-153 | a field line leaves the groups alone and makes the device non-empty exactly when it stores a device field |
| LspciFacts.RunDeviceCount | generate_data.py:154-179 | every record that reaches its blank line adds exactly one device |
| LspciFacts.ReparseDuplicates | generate_data.py:122-181 | parsing the same text again adds its devices a second time, so the groups differ |
| LspciFacts.LineKey | generate_data.py:132-136 | a stored field name has no tab, no colon and no upper-case letter, and is never `class` |
| LspciFacts.ReadKeepsClean | generate_data.py:141-153 | a device line adds a clean key and never duplicates one |
| LspciFacts.RunKeysClean | generate_data.py:129-179 | every filed device has unique, clean field names, and none begins with `iommugroup` |
| LspciFacts.VendorSplitExample | generate_data.py:145-151 | `"Intel Corporation [8086]"` under `vendor` splits into name and id; `svendor "Ethernet"` and a `device` value keep their text |
| LspciFacts.ReadNamedLine | generate_data.py:132-153 | reading `<Name>:\t<value>` stores the lower-cased name with the untabbed value, in the group or in the device |
| LspciFacts.SlotLine | generate_data.py:132-153 | a `Slot:` line sets the device's `slot` |
| LspciFacts.GroupLine | generate_data.py:132-143 | an `IOMMUGroup:` line sets the group accumulator's iommugroup |
| LspciFacts.RecordRun | generate_data.py:129-179 | a Slot line, an IOMMUGroup line and a blank line read one record and file it |
| LspciFacts.NewGroupRecord | generate_data.py:163-171 | a record with a new iommugroup opens a group of its own at the end |
| LspciFacts.SameGroupRecord | generate_data.py:172-175 | a record read on any structure that already holds its iommugroup is appended to the matching groups, and the rest of the text is read from there |
| LspciFacts.TwoDevicesOneGroup | generate_data.py:122-181 | two records with the same IOMMUGroup and different Slots give one group holding both devices in order |

## Left out

- `lookup_vendor`, the HTTP request to the PCI ID service, the final submission, `main`, argument parsing, running `lspci` as a subprocess, and pretty-printing are not part of this model. They are I/O around the two parsers.
- Reading the DMI files is a map from file name to content. Read errors (permissions, undecodable bytes) are not modelled. A path that is not a regular file counts as missing, as `is_file()` makes it.
- PyStr.Lower: folds ASCII letters only, where Python's `str.lower()` also folds other scripts.
- Lspci.SplitVendor: `\w` is ASCII letters, digits and underscore, where Python's `re` also accepts non-ASCII word characters. `\s` uses Python's full whitespace set.
- Dates.ParseMdy: digits are ASCII digits only, where `strptime` also accepts other Unicode decimal digits.
- Dates.FormatIso: writes a year below 1000 with four digits. What `strftime("%Y")` prints for such years depends on the C library.
- Lspci.ParseLspciOutput: `iommugroup` is an optional string, as the parser produces it. A pre-existing group whose `iommugroup` is another JSON value, or that lacks the key (a KeyError in the source), is not modelled.
- Lspci.ParseLspciOutput: groups are values in a sequence. Aliasing between a group and the parser's accumulator dictionary is not modelled, and the source never relies on it.
- Hardware.ParseHardware: the source's loop also visits the `"groups"` entry of the record. It is an empty list, so nothing is read for it, and the model leaves it out of the loop.
