# PMU simulator: a Dafny model

This project models the logic of a PMU (phasor measurement unit) simulator
that streams IEEE C37.118.2 synchrophasor frames to phasor data
concentrators (PDCs). It covers two source files:

- `synchrophasor/pmu.py`: the device.
  - The `Pmu` object holds three configuration slots, a header frame, and
    one delivery queue per connected client.
  - `send` fans frames out to every queue.
  - `run`, `acceptor` and `stop` maintain the client lists.
  - `pdc_handler` serves one client. It reads a frame using the
    FRAMESIZE word (bytes 2-3 of the common header, section 6.2 of
    IEEE C37.118.2-2011). It obeys the commands of section 6.6: turn on,
    turn off, and send HDR, CFG-1, CFG-2 or CFG-3. While streaming, it
    writes queued measurements one per pass.
- `main.py`: the front end's profile rules.
  - `validate_config`.
  - The default overlay of `load_config_from_file`.
  - The atomic checks and merge of `import_config`.
  - The save rules of `save_current_config` and `save_new_pmu`.
  - The running registry of `start_selected_pmu` and `stop_selected_pmu`.
  - The per-PMU log list with its 2000-line bound.
  - The channel layout of the configuration frame a simulation builds.
  - The connection-state notices of the simulation loop.

How the model is laid out:

- **Frames are opaque values.** The codec is not part of this model. A frame
  carries only its kind, id code, data rate and payload.
- **The slots `cfg1` and `cfg2` hold references to objects of class
  `ConfigFrame`.** These objects have mutable class, id and rate fields, so
  the aliasing of the built-in sample (one object seen as both CFG-1 and
  CFG-2) is modelled as it is.
- **`pdc_handler`'s loop becomes a step function.** `Session.StepSpec` takes
  the streaming flag, what was heard and the queue. It returns the new flag,
  the writes on the socket, the queue left and the log notes.
  `Session.Session.Step` is the imperative pass over a `Connection` object.
  Each received segment of the connection is one `recv` delivery.
- **Profiles are an ordered table.** The order of names is the order of
  Python's dictionary, which decides the order of messages. What the user
  typed and what a JSON file held arrive as parameters.

The modules are:

| Module | What it holds |
|---|---|
| `Frames` | Frame values and configuration frame objects |
| `Transport` | Socket and queue objects |
| `Session` | The per-client handler |
| `PmuDevice` | The `Pmu` class |
| `Profiles` | JSON values, `DEFAULT_CONFIG`, `validate_config`, `strip` |
| `ImportRules` | The import checks |
| `ProfileUi` | The profile table and its operations |
| `Simulations` | The running registry |
| `Simulator` | Channel layout, log lists, connection notices |

Two behaviours of the code worth stating up front:

- **Delivery queues are unbounded.** `multiprocessing.Queue()` is created
  without a bound at `synchrophasor/pmu.py:166`. The model queues every item
  and drops none.
- **The per-client worker is a process handed pickled copies of the
  configuration.** A session therefore works on snapshots of `cfg1`, `cfg2`
  and `header`, taken at accept time.

## Model

| member | source | states |
|---|---|---|
| Frames.ConfigFrame.constructor | synchrophasor/pmu.py:41-64 | A new configuration frame object holds the class, id and rate it was built with. |
| Frames.ConfigFrame.Snapshot | synchrophasor/pmu.py:168-172 | The value pickled for a worker process has the object's class, id and rate at that moment. |
| Frames.ConfigFrame.SetIdCode | synchrophasor/pmu.py:79-80 | `set_id_code` changes the id only. |
| Frames.ConfigFrame.SetDataRate | synchrophasor/pmu.py:116-117 | `set_data_rate` changes the rate only. |
| Frames.ConfigFrame.CastToConfigFrame1 | synchrophasor/pmu.py:68-70 | The `__class__` assignment turns the same object into a CFG-1. Its id and rate are kept. |
| Frames.PyValue.Falsy | synchrophasor/pmu.py:141 | Python truthiness, as `run` (and the `not config` and `not self.cfg1` tests of `set_configuration`) use it: None, 0, False, empty containers, and the empty string or bytes are false. Frames and configuration objects are true. |
| Transport.Take | synchrophasor/pmu.py:221-226 | One `recv(n)` returns at most `n` bytes in arrival order and loses nothing. It returns empty exactly when `n` is 0 or the peer has closed. |
| Transport.Connection.Recv | synchrophasor/pmu.py:221-230 | A receive consumes exactly what `Take` delivers. Nothing is written and the socket stays open. |
| Transport.Connection.SendAll | synchrophasor/pmu.py:256 | `sendall` appends exactly one write to what the peer sees. The socket stays open. |
| Transport.Connection.Sleep | synchrophasor/pmu.py:281 | `sleep(delay)` before a write is recorded as one pause. Nothing else changes. |
| Transport.Connection.Close | synchrophasor/pmu.py:288 | `close` closes the socket and changes nothing else. |
| Transport.ClientBuffer.Put | synchrophasor/pmu.py:131-132 | `put` appends the item at the back of the queue. |
| Transport.ClientBuffer.Get | synchrophasor/pmu.py:276-277 | `get` removes and returns the front item (FIFO). |
| Transport.ClientBuffer.IsEmpty | synchrophasor/pmu.py:276 | `empty()` is true exactly when no item is queued. |
| Session.FrameSize | synchrophasor/pmu.py:222-223 | The declared size is the unsigned big-endian word at bytes 2-3, below 65536. |
| Session.FrameSizeOfWrittenWord | synchrophasor/pmu.py:223 | The size written as high byte then low byte reads back unchanged. |
| Session.PacingDelay | synchrophasor/pmu.py:211 | The delay is `1/data_rate` for a positive rate and `-data_rate` otherwise. It is never negative. |
| Session.ReadHead | synchrophasor/pmu.py:219-222 | Reading until 4 bytes have arrived loses no bytes. When it starts short, it overshoots by less than one buffer. It stalls only on a zero buffer size or a closed peer. |
| Session.ReadBody | synchrophasor/pmu.py:224-230 | Follow-up reads never pass the declared size. They stop early only when a read comes back empty. Bytes are kept in order. |
| Session.ReadFrameSpec | synchrophasor/pmu.py:218-231 | The bytes of one message are a prefix of the stream. A short message means the peer closed. A long one is the first read overshooting the declared size. |
| Session.ReadFrame | synchrophasor/pmu.py:218-230 | The two read loops over the connection give exactly `ReadFrameSpec` of the inbound stream. |
| Session.ExactFrameIsRead | synchrophasor/pmu.py:218-233 | A frame that arrives whole, with a matching size word, is read as exactly that frame. The rest of the stream is left for later. |
| Session.BodyReadsRemainder | synchrophasor/pmu.py:224-230 | When the missing bytes arrive in one segment, the body loop reads exactly that segment. |
| Session.CoalescedFramesAreDropped | synchrophasor/pmu.py:231-246 | Two frames delivered in one read give a message whose length differs from its size word. It is not decoded. |
| Session.HeardOf | synchrophasor/pmu.py:232-243 | A decoded frame is heard as that frame. `FrameError` is heard as an unknown message, which the handler survives. Any other exception is a broken read, which ends the handler (lines 285-288). |
| Session.Listen | synchrophasor/pmu.py:215-246 | An unreadable socket hears nothing. A readable one consumes exactly what `ReadFrameSpec` reads. It spins iff that read stalls. A message whose length equals its size word is decoded, and what is heard is the decode's answer (frame, unknown message or broken read). A message of any other length is reported incomplete. |
| Session.KeywordOf | synchrophasor/pmu.py:247-275 | Each of the six command words maps to its own action. Any other word is unrecognised. |
| Session.CommandOf | synchrophasor/pmu.py:234-235 | A command exists only for a decoded command frame with a non-empty command word. |
| Session.HeardNotes | synchrophasor/pmu.py:232-246 | Each received message logs exactly one note. Silence, a spin or a broken read logs none. |
| Session.React | synchrophasor/pmu.py:247-275 | `start` sets the flag and `stop` clears it; nothing else changes it. `header` and `cfg2` write exactly one frame, restamped iff `set_timestamp`. So does `cfg1` when the handler was given a CFG-1. With no CFG-1 the command raises. `cfg3` with no CFG-3 writes nothing but logs "sent". `cfg3` holding the class raises. |
| Session.Outbound | synchrophasor/pmu.py:276-280 | Raw bytes are written unchanged. Frames are encoded, restamped iff `set_timestamp`. |
| Session.StepSpec | synchrophasor/pmu.py:213-288 | A pass that spins or closes writes nothing and keeps the flag and the queue. It spins iff the read stalled. It closes iff the read broke, or the command was `cfg1` with no CFG-1, or `cfg3` with the class in the slot. |
| Session.ReplyEvents | synchrophasor/pmu.py:254-275 | A reply is one write of exactly that reply. No reply writes nothing. |
| Session.StepSpecShape | synchrophasor/pmu.py:213-284 | One pass handles the command before the measurement. It dequeues at most one item, and only while streaming with a non-empty queue. The item is written after the pacing delay. |
| Session.Run | synchrophasor/pmu.py:213-288 | Passes run one after another until the connection closes or the handler spins. The writes and notes of the passes are concatenated. |
| Session.RunTakesFromFront | synchrophasor/pmu.py:214-284 | Over any run of passes, what is left of the queue is a suffix of it. At most one item leaves per pass. |
| Session.Delivered | synchrophasor/pmu.py:276-282 | Delivering a list of items makes two writes per item. |
| Session.DeliveredInPairs | synchrophasor/pmu.py:276-282 | The writes for the i-th item are the pacing delay, then that item encoded. |
| Session.QuietPass | synchrophasor/pmu.py:276-284 | A pass with no message delivers the front item when streaming with a non-empty queue. Otherwise it does nothing. |
| Session.StartPass | synchrophasor/pmu.py:247-250 | A `start` command turns streaming on and delivers the front item in the same pass. |
| Session.StopPass | synchrophasor/pmu.py:251-253 | A `stop` command turns streaming off, and nothing is delivered in that pass. |
| Session.StreamingDrainsInOrder | synchrophasor/pmu.py:276-284 | With streaming on and no commands, passes write the queued items in FIFO order, one per pass. |
| Session.IdleWritesNothing | synchrophasor/pmu.py:210 | With streaming off and no commands, nothing is written and the queue is untouched. |
| Session.StartThenStop | synchrophasor/pmu.py:248-253 | `start` then `stop` delivers exactly one item and leaves streaming off. |
| Session.Session.constructor | synchrophasor/pmu.py:200-211 | A session starts not streaming, with the pacing delay of the rate it was handed. |
| Session.Session.Terminate | synchrophasor/pmu.py:192-193 | Terminating the process changes no session state. |
| Session.Session.Hear | synchrophasor/pmu.py:215-246 | Reading from the socket is exactly `Listen` on its inbound stream. |
| Session.Session.Obey | synchrophasor/pmu.py:247-275 | Obeying a command updates the flag, the socket writes and the log exactly as `React` says. |
| Session.Session.Deliver | synchrophasor/pmu.py:276-284 | While streaming with a non-empty queue, the front item is written after the delay. Otherwise nothing happens. |
| Session.Session.Step | synchrophasor/pmu.py:213-289 | One loop pass is exactly `StepSpec` of what was heard. A crash closes the connection. |
| Session.Session.Act | synchrophasor/pmu.py:247-289 | The command and measurement half of a pass is exactly `StepSpec`. |
| Session.Session.Respond | synchrophasor/pmu.py:247-289 | A command that raises closes the connection with nothing written and the queue kept. Otherwise the reply is written, and then the front item when streaming with a non-empty queue. |
| PmuDevice.ItemOf | synchrophasor/pmu.py:128-130 | Frames, configuration objects and bytes are accepted; anything else is refused. A configuration object is queued as its value at the time of the call. |
| PmuDevice.Pmu.constructor | synchrophasor/pmu.py:27-76 | `cfg1` and `cfg2` are one fresh sample object, cast to CFG-1. `cfg3` is None, the header is the default text, and there are no clients or queues. |
| PmuDevice.Pmu.Broadcast | synchrophasor/pmu.py:131-132 | Every client queue gets the item at its end. |
| PmuDevice.Pmu.Send | synchrophasor/pmu.py:128-132 | An unsupported value raises `PmuError` with every queue unchanged. Otherwise the same item is appended to every queue. |
| PmuDevice.Pmu.SendData | synchrophasor/pmu.py:134-138 | One data frame carrying `cfg2`'s id is appended to every queue. |
| PmuDevice.Pmu.SetId | synchrophasor/pmu.py:78-82 | The id is written to `cfg1` and then `cfg2`, and CFG-2 is broadcast. A missing slot raises `AttributeError`. |
| PmuDevice.Pmu.SetDataRate | synchrophasor/pmu.py:115-120 | The rate is written to both views and to `data_rate`, then CFG-2 is broadcast. |
| PmuDevice.Pmu.SetConfiguration | synchrophasor/pmu.py:84-102 | Dispatch is by exact type. A falsy argument restores the sample. CFG-1 replaces `cfg1`. CFG-2 replaces `cfg2`, and also fills and casts `cfg1` if that slot is empty. CFG-3 stores the class. Anything else raises `PmuError`. |
| PmuDevice.Pmu.SetHeader | synchrophasor/pmu.py:104-113 | None changes nothing. A header frame replaces the header. A string becomes a header with `cfg2`'s id. Anything else raises `PmuError` with the header kept. |
| PmuDevice.Pmu.Run | synchrophasor/pmu.py:140-150 | `run` raises iff all three slots are falsy. Otherwise it clears `_stopped` and listens. |
| PmuDevice.Pmu.Cfg1Copy | synchrophasor/pmu.py:168-172 | The handler gets None for an empty CFG-1 slot. Otherwise it gets a snapshot of the CFG-1 object. |
| PmuDevice.Pmu.Accept | synchrophasor/pmu.py:166-176 | Each accepted connection appends one fresh empty queue and one client session, which serves that queue with snapshots of the slots. An empty CFG-1 slot reaches the session as None. |
| PmuDevice.Pmu.Acceptor | synchrophasor/pmu.py:152-176 | While not stopped, every arrival gets its own queue and client, in order. When not stopped with an empty CFG-2 slot, the log line raises `AttributeError` before any connection is accepted, and nothing changes. |
| PmuDevice.Pmu.Stop | synchrophasor/pmu.py:182-197 | `stop` sets `_stopped`, closes the socket, terminates and forgets every client, and keeps `client_buffers`. |
| Profiles.KeyFor | main.py:340-355 | Numbers (bool, int, float) hash and compare by numeric value. Other values compare as themselves. |
| Profiles.NumbersCompareByValue | main.py:569-572 | `1 == 1.0 == True` and `0 == False`. Strings and null never equal a number. |
| Profiles.IntOf | main.py:209-216 | An `int` (or `bool`) value has the number it denotes. |
| Profiles.DefaultItemsAreDefaults | main.py:22-37 | The fourteen default items, in order, are the entries of `DEFAULT_CONFIG`. Each is a string or an integer, and no key repeats. |
| Profiles.DefaultItemsCoverDefaults | main.py:22-37 | Every key of `DEFAULT_CONFIG` is among the default items. |
| Profiles.Merged | main.py:251-252 | A loaded profile keeps every key it has and takes the default for each key it lacks. |
| Profiles.MergeIsIdempotent | main.py:251-252 | Overlaying the defaults twice is overlaying them once. |
| Profiles.InRange | main.py:211-217 | The bounds: id at least 0, rate above 0, port from 0 to 65535, phasor count at least 0. |
| Profiles.Acceptable | main.py:211-217 | A setting is acceptable when its key is present, its value is a Python `int` (a `bool` included), and it is within its bounds. |
| Profiles.CheckOne | main.py:209-216 | One check passes iff its key is present and acceptable. A missing key is a `KeyError`. |
| Profiles.ValidateConfig | main.py:209-217 | It passes iff all four checks pass (id at least 0, rate above 0, port from 0 to 65535, phasor count at least 0, each a Python `int`). Otherwise the result is that of the first failing check in the order id, rate, port, phasor count. A `ValueError` names a setting whose key is present. A `KeyError` names a key that is absent. |
| Profiles.CompleteProfilesDoNotRaise | main.py:209-216 | A profile that has the four keys never raises `KeyError`. |
| Profiles.DefaultConfigPasses | main.py:22-37 | `DEFAULT_CONFIG` passes validation. |
| Profiles.IdZeroPasses | main.py:211 | Id 0 passes, and so does `True` (a Python `int`). Id -1 is rejected. |
| Profiles.OnlyIdChanged | main.py:209-216 | Changing the id changes no other check's result. |
| Profiles.ValidationReadsFourKeys | main.py:209-216 | Validation depends only on `pmu_id`, `data_rate`, `port` and `phasor_num`. |
| Profiles.IsSpace | main.py:605-613 | The characters `str.isspace` accepts, which `strip()` removes: the ASCII controls from tab to carriage return, the separators 0x1C-0x1F, space, 0x85, no-break space and the Unicode space separators. |
| Profiles.StripLeft | main.py:605 | Removes a leading run of whitespace and nothing more. |
| Profiles.StripRight | main.py:605 | Removes a trailing run of whitespace and nothing more. |
| Profiles.Strip | main.py:605 | The result is no longer than the input and neither starts nor ends with whitespace. |
| Profiles.StripCutsEnds | main.py:605 | `strip()` returns a contiguous slice of the input with only whitespace cut on either side. |
| Profiles.StripIsEmptyIffBlank | main.py:605-608 | A name strips to empty iff it is all whitespace. |
| ImportRules.Get | main.py:334-335 | `cfg.get(key)` is the value, or None when the key is absent. |
| ImportRules.Column | main.py:333-335 | The imported ids (or ports) are read in file order, one per profile. |
| ImportRules.Keys | main.py:340-355 | Each value is compared by its Python hash key. |
| ImportRules.Distinct | main.py:343-344 | `set(new_ids)` holds each value once, and exactly the values of the list. |
| ImportRules.ConflictErrors | main.py:340-342 | Conflict messages name only values held by an existing profile, at most one per imported value. |
| ImportRules.RepeatErrors | main.py:343-346 | Every repeat message for a column names a value of the column and carries its count, which is above 1. |
| ImportRules.RepeatsAmong | main.py:343-346 | Repeat messages carry the exact count of a value that appears more than once. |
| ImportRules.CanCheck | main.py:325-355 | The checks can run only when every stored profile has an id and a port, and every id and port involved is hashable. |
| ImportRules.ImportVerdict | main.py:323-361 | The checks raise iff some value cannot be hashed or a stored profile lacks its id or port. Otherwise they give the four message lists in order. |
| ImportRules.ScanConflicts | main.py:340-342 | The conflict loop produces exactly `ConflictErrors`. |
| ImportRules.ScanRepeats | main.py:343-346 | The count loop over `set(new_ids)` produces exactly `RepeatErrors`. |
| ImportRules.UnrepeatedHasNoRepeats | main.py:343-346 | Counts of at most 1 mean no two positions hold equal values. |
| ImportRules.ConflictErrorsEmpty | main.py:340-342 | No conflict message appears iff no imported value is already held. |
| ImportRules.ConflictErrorsCount | main.py:340-342 | A held value gets one conflict message per occurrence in the file. |
| ImportRules.RepeatsAmongValues | main.py:343-346 | Repeat messages name each repeated value exactly once. |
| ImportRules.RepeatedOnce | main.py:343-346 | Each distinct value occurring more than once yields exactly one message, and no other value yields one. |
| ImportRules.RepeatErrorsEmpty | main.py:343-346 | No repeat message appears iff every value occurs at most once. |
| ImportRules.ImportAcceptedIff | main.py:339-361 | The import is accepted iff no imported id or port is already held and none repeats within the file. |
| ImportRules.ReimportIsRefused | main.py:324-342 | An imported id equal to any stored id is refused, even the id of the profile being overwritten. |
| ProfileUi.InOrder | main.py:325-326 | The stored profiles are listed in table order. |
| ProfileUi.NamesOf | main.py:333 | The names of the imported file, in order. |
| ProfileUi.ConfigsOf | main.py:333 | The profiles of the imported file, in order. |
| ProfileUi.MapOf | main.py:364-365 | Writing the entries one by one stores exactly the file's names. |
| ProfileUi.MapOfValues | main.py:364-365 | With distinct names, each name maps to its own profile. |
| ProfileUi.Select | main.py:336-337 | Picks, in order, exactly the names that are (or are not) stored. |
| ProfileUi.StoreStep | main.py:364-365 | Storing one more imported profile overwrites a held name in place, or appends a new one. |
| ProfileUi.SelectPartitions | main.py:376 | `overwritten` and `added` together are exactly the imported names. |
| ProfileUi.GrownNamesNoRepeats | main.py:364-365 | Appending names that are not yet stored keeps the table free of repeats. |
| ProfileUi.FieldValue | main.py:564 | A string field keeps its text. A numeric field converts iff `int()` accepts the text. |
| ProfileUi.ClashWith | main.py:569-574 | Id is compared first, then port, by Python equality. A missing key raises. |
| ProfileUi.ClearOfSymmetric | main.py:627-633 | Two profiles clash no matter which one is compared with the other. |
| ProfileUi.Loaded | main.py:249-253 | The loaded table holds exactly the file's names. |
| ProfileUi.LoadStep | main.py:250-253 | Loading an entry whose name is new appends the name and stores the entry overlaid on the defaults. |
| ProfileUi.LoadedCompletes | main.py:250-253 | Each loaded profile is its file entry overlaid on the defaults, so it has every default key. |
| ProfileUi.PutKeepsApart | main.py:576 | Storing a profile that clears every other profile keeps all ids and ports unique. |
| ProfileUi.ImportedPairClear | main.py:343-355 | Accepted imported profiles have different ids and ports. |
| ProfileUi.DistinctAt | main.py:343-355 | Two places of a column without repeats hold values Python tells apart. |
| ProfileUi.ImportedClearsStored | main.py:340-351 | An accepted imported profile clashes with no stored profile. |
| ProfileUi.PairClearAfterImport | main.py:363-365 | After an accepted import, any two profiles in the table differ in id and port. |
| ProfileUi.ImportKeepsApart | main.py:339-365 | When every imported profile has an id and a port, and the table had unique ids and ports, an accepted import keeps them unique across the whole table. |
| ProfileUi.Convert | main.py:562-566 | Conversion succeeds iff every entry's key has a default and, for a present widget, its text converts. Otherwise it fails at the first entry that does not: a key with no default raises `KeyError` even for a vanished widget, and a non-number is a `ValueError`. Converted keys are default keys of the same type, exactly those of entries with a present widget. |
| ProfileUi.ConvertValues | main.py:562-566 | After a successful conversion, each present entry holds its text converted to its default's type. A vanished widget's key is absent. |
| ProfileUi.ConvertStopsAtFailure | main.py:562-566 | Conversion stops at the first failing entry. |
| ProfileUi.Stripped | main.py:613 | Each field is stripped. |
| ProfileUi.ReadForm | main.py:612-621 | A filled form has every field non-blank. |
| ProfileUi.ReadFormKeys | main.py:612-621 | A filled form holds exactly the form's keys. A failed form names a blank field, or a field whose text does not convert. |
| ProfileUi.ReadFormValues | main.py:612-621 | In a filled form, a key holds its field's converted value unless a later field repeats the key. |
| ProfileUi.ReadFormStopsAtFailure | main.py:612-621 | Reading the form stops at the first blank or unparsable field. |
| ProfileUi.FilledFormMatches | main.py:612-621 | Over distinct keys that cover a set of defaults, a filled form has exactly the defaults' keys, each with its default's type. |
| ProfileUi.FilledFormIsComplete | main.py:612-621 | A filled add form has exactly the default keys, each of its default's type. |
| ProfileUi.FilledFormNeverRaises | main.py:622-623 | Validating a filled add form never raises `KeyError`. |
| ProfileUi.ConvertEntries | main.py:562-566 | The conversion loop, which looks up the default before reading the widget, gives exactly `Convert`. |
| ProfileUi.ReadAddForm | main.py:612-621 | The field loop over the form's entries gives exactly `ReadForm` of the stripped fields. |
| ProfileUi.ImportColumns | main.py:332-337 | The first pass collects the ids, the ports and the stored names of the file, in file order. |
| ProfileUi.KeyColumn | main.py:333-335 | The hash keys of one field, entry by entry. |
| ProfileUi.KeysOfColumn | main.py:333-335 | Collecting keys entry by entry gives the keys of the column. |
| ProfileUi.ScanImport | main.py:339-356 | The four check loops give exactly the messages of `ImportVerdict`. |
| ProfileUi.ProfileBook.Stored | main.py:325-326 | One stored profile per table name. |
| ProfileUi.ProfileBook.constructor | main.py:232 | The table starts empty. |
| ProfileUi.ProfileBook.Put | main.py:365 | Assigning by name overwrites in place, or appends the name last. |
| ProfileUi.ProfileBook.ResetToDefaults | main.py:255 | The table becomes the single profile "PMU 1" with the defaults. |
| ProfileUi.ProfileBook.Load | main.py:244-259 | A readable file of objects loads each profile over the defaults, in file order. A missing file writes the defaults. Any other failure falls back to the defaults. |
| ProfileUi.ProfileBook.LoadEntries | main.py:249-253 | The loop succeeds iff every entry is an object. The table then holds the file's names in order, each mapped to its `Loaded` profile. |
| ProfileUi.FirstClash | main.py:567-574 | No clash iff every profile from the given position on, except the skipped name, clears the candidate. Otherwise it is the comparison with the first profile that does not. |
| ProfileUi.NoFirstClashIsClear | main.py:567-574 | A scan of the whole table finds no clash iff every other profile clears the candidate. |
| ProfileUi.ProfileBook.FindClash | main.py:567-574 | The comparison loop gives exactly `FirstClash` of the whole table. |
| ProfileUi.ProfileBook.SaveCurrent | main.py:558-581 | Convert, then compare with other names only, then validate, then store. A clash reports the comparison with the first other profile that does not clear the candidate. A `ValueError` from validation names an invalid setting, and a missing key raises out of the save. Any rejection changes nothing. Success replaces exactly one entry and keeps ids and ports unique. |
| ProfileUi.ProfileBook.SaveNew | main.py:603-638 | The name must be non-blank after strip and new, and every field filled and converted. Validation runs before the comparison with every profile. A missing key raises out of the save. A clash reports the comparison with the first profile that does not clear the candidate. Any rejection changes nothing. Success appends exactly one profile. |
| ProfileUi.ProfileBook.SaveForm | main.py:612-638 | A blank or unconvertible field is reported by key. A filled form must pass validation and clear every stored profile. A clash reports the first stored profile that does not clear it. Only success changes the table: it appends the profile last and keeps ids and ports unique. |
| ProfileUi.ProfileBook.StoreAll | main.py:363-365 | Merging gives the old table updated with the file. New names go last in file order. |
| ProfileUi.ProfileBook.Import | main.py:300-381 | Import raises, is refused with the verdict's messages, or imports. Only a successful import changes the table. Every imported name then maps to its profile, and others are unchanged. `overwritten` and `added` are the stored and new names. When every imported profile has an id and a port, and the table had unique ids and ports, they stay unique. |
| Simulations.Registry.constructor | main.py:40 | The registry starts empty. |
| Simulations.Registry.Start | main.py:659-683 | An empty selection is an error. Otherwise each selected name is registered and reported as started, or reported as already running, exactly as `StartSpec`. |
| Simulations.Registry.Stop | main.py:685-697 | No focus, or a name not running, is an error with no change. Otherwise exactly that name is removed. |
| Simulations.StartSpec | main.py:664-676 | Started names were not running and become running. Already-running names stay. Nothing else is registered. |
| Simulations.StartRaisesIff | main.py:671 | The loop raises `KeyError` iff a selected name is neither running nor a stored profile. |
| Simulations.StartSplitsSelection | main.py:664-676 | With distinct known names, started and already-running split the selection by prior registration, in order. |
| Simulations.StartStopsAtRaise | main.py:666-676 | Nothing after the name that raises is processed. |
| Simulations.StopUndoesStart | main.py:668-695 | Starting a stopped profile and stopping it again restores the registry. |
| Simulations.StoppingStartedRestores | main.py:664-695 | For any selection, stopping every name the start registered restores the registry. |
| Simulator.NatToString | main.py:106-110 | The decimal numeral of a natural number: digits only, no leading zero. |
| Simulator.NatToStringRoundTrip | main.py:106-110 | Reading the numeral back gives the number. |
| Simulator.NatToStringInjective | main.py:106-110 | Different numbers get different numerals. |
| Simulator.HalfTruncated | main.py:124 | `int(n / 2)` truncates toward zero. |
| Simulator.LayoutOf | main.py:103-127 | There are `phasor_num + analog_num + 16*digital_num` names (negative counts give none). There is one unit per phasor and analog, and one mask per digital word. |
| Simulator.ChannelNamesInOrder | main.py:106-110 | `Phasor{i+1}`, then `Analog{i+1}`, then `Digital{i//16+1}_{i%16+1}`. |
| Simulator.PhasorUnitsSplit | main.py:124-125 | The first `phasor_num // 2` phasors are voltages with factor 915527 and the rest are currents with factor 45776. An odd count has one extra current. |
| Simulator.AnalogAndDigitalUnits | main.py:126-127 | Every analog is `(1, "pow")` and every digital mask `(0x0000, 0xffff)`. |
| Simulator.ChannelsDiffer | main.py:105-110 | Different positions of the name list hold different channels. |
| Simulator.LabelsDiffer | main.py:106-110 | Different channels get different names, digital ones included. |
| Simulator.ChannelNamesDistinct | main.py:105-110 | No two channels of the frame share a name. |
| Simulator.Retained | main.py:88-91 | After one line, the list has `min(old + 1, 2000)` lines. The last is the new one, and the list is a suffix of old plus new. |
| Simulator.Newest | main.py:88-91 | The newest `min(n, 2000)` of `n` lines. |
| Simulator.RetainedAllKeepsNewest | main.py:88-91 | Logging lines one by one, trimming each time, leaves the newest `min(total, 2000)` of them. |
| Simulator.NewestOfNewest | main.py:88-91 | Trimming before more lines arrive keeps exactly what trimming afterwards would keep. |
| Simulator.LogBook.constructor | main.py:45 | No PMU has a log list at first. |
| Simulator.LogBook.Record | main.py:86-91 | Only this PMU's list changes, to `Retained` of its old list (created empty). No list exceeds 2000 lines. |
| Simulator.LogBook.Clear | main.py:479-481 | With a selected PMU whose name is not empty, exactly that PMU's list is emptied. With no selection, or the empty name (falsy in Python), no list changes. |
| Simulator.Notices | main.py:160-187 | One notice on the first pass, then one on each pass where the client state changed. The first and last notices match the first and last states. |
| Simulator.NoticesAlternate | main.py:163-185 | Consecutive notices always differ. |
| Simulator.SteadyRunNoticesOnce | main.py:163-185 | A run with no change in clients logs a single notice. |
| Simulator.WatchConnection | main.py:158-187 | The loop with `connection_state` logs exactly `Notices`, and sends one data frame per pass with clients. |

## Left out

- The frame codec (`convert2bytes`, `convert2frame`, `set_time`, the CRC and the byte layouts) lives in `synchrophasor/frame.py`, which is not part of this model. Frames are opaque values, and decoding a message is a function parameter.
- `Pmu.set_data_format` is not modelled, because it only calls into the codec's data-format setters. `Pmu.join` is not modelled, because it only waits on the listener thread.
- `send_data` ignores its `stat`, `soc` and `frasec` arguments in the model, because the frame they would fill is opaque.
- Sockets, `select`, `sleep`, threads and processes are events and parameters. The inbound stream is a list of `recv` deliveries, and time is not modelled.
- The busy loop when the peer closes before 4 bytes arrive is the end state `Spinning`. It is not iterated forever.
- The exception `print` in `pdc_handler` and all log text are reduced to note values.
- The Tkinter interface (widgets, dialogs, tree, status labels, log polling) is not modelled. Its inputs arrive as parameters: the selection, the focused name, the typed fields.
- Reading and writing `pmu_configs.json` is not modelled. Neither is `save_config_to_file` or its error dialog. A loaded file is a `ProfileFile` value.
- `int()` of a typed string is the parameter `parseInt`. Its exact grammar (signs, underscores, surrounding spaces) is not modelled.
- Floating-point JSON values other than their real value (NaN, infinities, rounding) are not modelled.
- Lists and objects inside a profile are compared structurally, not by Python's rules for nested containers.
- A `recv` or `sendall` that raises (a reset by the peer, say) is not modelled. In the source it ends the handler and closes the connection (`synchrophasor/pmu.py:285-288`); the model closes the connection only on a broken read or a command that raises.
- PmuDevice.ItemOf: a configuration object is queued as its value at the time of `send`. `multiprocessing.Queue.put` pickles the object later, in a feeder thread, so a change made right after `send` may reach the client; the model does not capture that race.
- ImportRules.RepeatsAmong: messages follow the order of first appearance in the file. Python orders them by set iteration, which is unspecified.
- An imported entry that is not an object, or a file that is not an object, is not modelled. Import takes a sequence of named profiles.
- `dict.update` with a list of pairs in `load_config_from_file` is not modelled. Only object entries are loaded.
- Duplicate keys inside one JSON object are not modelled. The names of a file are distinct by precondition.
- `current_pmu` being None in `save_current_config` is not modelled. A name is always given.
- `delete_pmu`, `clear_logs`' widget work, `start_simulation` and the simulator's thread body are not modelled, apart from the log list, channel layout and notice loop above. This includes the random data frames and the loop's exception handler.
- Simulator.WatchConnection: the loop ends when the observations run out. Removal from `pmu_threads` is outside the model.
- Python's `int(n / 2)` goes through a float. For phasor counts beyond 2^53 it can differ from exact truncation; the model uses exact truncation.
