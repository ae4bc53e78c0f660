# LumaFlow core, modelled in Dafny

LumaFlow edits lighting sequences: ten channels, each a 4-bit (function, red,
green, blue) quadruple per keyframe, laid out on a timeline beside a
mel-spectrogram track of the video's audio. This project models the
sequential logic under its Qt widgets and proves properties of that model.
The model covers five parts of the program.

- **The spectrogram tile engine.**
  - The LRU tile cache (`TileCache`).
  - The tile addressing and request de-duplication of `AudioVisualizationItem`: zoom level, visible tile ids, cache keys and the pending set.
  - The background tile renderer (`AudioTextureWorker.render_tile`).
  - The audio manager's dictionary of processed audio.
- **Keyframe level-of-detail aggregation** (`RenderWorker` in `ui/timeline_widget.py`).
  - The visible slice with its clamped lead-in.
  - Raw and binned mode.
  - The per-keyframe importance score.
  - The snap-to-frame lookups of the timeline.
- **The keyframe store and the edit history.**
  - `DataManager`: range query, overwrite-paste, delete, renumbering, floor lookup and validation.
  - `UndoManager` with its commands.
  - `ClipboardManager`.
- **Encoders and lookup tables.**
  - The 22-byte serial packet.
  - The keyboard colour values.
  - The hand-written protobuf request and its gRPC length-prefixed frame.
  - The colour calibration's reverse lookup table.
  - The flat scatter arrays.
- **Small state machines and clamps.**
  - The timeline tools: selection and hand, and the tool manager.
  - The audio track's range clamps and vertical zoom.
  - The timeline/audio range synchronisation.

## How the model is built

- **Value entities become datatypes.** A keyframe is a `Keyframe` record: frame id, time in ms, ten `Channel(fn, red, green, blue)` values and a marker. A DataFrame is a `seq<Keyframe>`, and a pandas operation becomes a sequence function.
- **Objects whose fields change become classes.** These are `TileCache`, `AudioVisualizationItem`, `AudioManager`, `DataManager`, `UndoManager`, `ClipboardManager`, `ColorCalibration`, `KeyboardDeviceManager`, the tools, the audio track and the group widget. Their methods carry `modifies` clauses and state the whole new state.
- **Loops become methods with invariants.**
  - The source's loops are: the per-channel distance accumulation, the bin loop, the render-data fill, the packet builder, the average, the reverse-table fill, the request builder and the scatter fill.
  - Each loop is a method proved equal to a specification function.
  - The properties the source promises are proved about those functions as lemmas.
- **Threads become calls.** Qt delivers every cross-thread result through a queued signal on the GUI thread, so each request and each result is an ordinary call, taken one at a time.
- **Times and floats are `real`.** Python's `int()` on a float is `Trunc`, which truncates toward zero.
- **Exceptions become return values.** A Python exception becomes `None` in an `Option`, or a `raised` flag on a method, and then nothing changes.

## Model

| member | source | states |
|---|---|---|
| TileCacheModel.IndexOf | utils/tile_cache.py:33 | the result is the first position holding the key; it is None exactly when no entry has the key |
| TileCacheModel.Lookup | utils/tile_cache.py:33-36 | `cache[key]` is defined exactly when some entry carries the key |
| TileCacheModel.AfterGetKeepsContents | utils/tile_cache.py:33-37 | a get keeps the keys distinct, the size, and every key's tile; a hit leaves the key at the most-recent end |
| TileCacheModel.AfterPutKeepsInvariant | utils/tile_cache.py:47-56 | a put that succeeds keeps the keys distinct and the size within max_size; the key then maps to the new tile and is the most recent entry |
| TileCacheModel.AfterPutFails | utils/tile_cache.py:53-55 | a put raises (popitem on an empty OrderedDict) exactly when the key is new, the cache is empty and max_size <= 0 |
| TileCacheModel.AfterPutEvictsOldest | utils/tile_cache.py:53-56 | a new key on a full cache removes exactly the least recently used entry and appends the new one; every other key keeps its tile |
| TileCacheModel.AfterPutAppends | utils/tile_cache.py:51-56 | a new key on a cache with room is appended and nothing is evicted |
| TileCacheModel.AfterPutReplaces | utils/tile_cache.py:47-50 | re-putting a present key succeeds, keeps the size and leaves every other key's tile |
| TileCacheModel.TileCache.constructor | utils/tile_cache.py:13-21 | a new cache is empty, with the given max_size |
| TileCacheModel.TileCache.Get | utils/tile_cache.py:23-37 | returns the key's tile on a hit and None on a miss; the entries become the get-reordered sequence, and the invariant is kept |
| TileCacheModel.TileCache.Put | utils/tile_cache.py:39-56 | succeeds exactly when the put is defined; on success the entries are the put result, and on KeyError they are unchanged |
| TileCacheModel.TileCache.Contains | utils/tile_cache.py:58-60 | true exactly when some entry carries the key |
| TileCacheModel.TileCache.Clear | utils/tile_cache.py:62-64 | the cache is empty afterwards |
| TileCacheModel.TileCache.Size | utils/tile_cache.py:66-68 | the entry count, which never exceeds max_size (or is 0) |
| TileCacheModel.TileCache.Keys | utils/tile_cache.py:70-72 | the keys from least to most recently used, in the order of the entries, each once, each contained |
| ClipboardModel.ClipboardManager.constructor | core/clipboard_manager.py:4-6 | the clipboard starts with no frames and no source, and has no data |
| ClipboardModel.ClipboardManager.SetClipboard | core/clipboard_manager.py:8-19 | stores the frames and the source ("edit" by default); has_data holds exactly when the frames are non-empty |
| AudioManagerModel.CacheAfterClearPrefix | core/audio_manager.py:302-306 | clearing by path keeps exactly the keys that do not start with the path, unchanged; every key of that path, or of a longer path that extends it, is removed |
| AudioManagerModel.UpdateParamsMerges | core/audio_manager.py:273-275 | given keys take the new values, and keys that were not given keep their old values |
| AudioManagerModel.AudioManager.constructor | core/audio_manager.py:208-249 | an empty audio dictionary, a fresh empty tile cache of 200, and the default parameters (n_fft 2048, hop 1024, 128 mels, 20-8000 Hz) |
| AudioManagerModel.AudioManager.ExtractAudio | core/audio_manager.py:251-271 | without librosa: failure; on a cache hit: the cached data, with no processing request; processing is requested, with the current defaults, exactly when librosa is present and the key is absent |
| AudioManagerModel.AudioManager.UpdateParams | core/audio_manager.py:273-275 | the defaults become the old defaults updated by the given map; nothing else changes |
| AudioManagerModel.AudioManager.GetAudioData | core/audio_manager.py:277-289 | Some exactly when "{path}_{mode}" is cached, and then the cached record |
| AudioManagerModel.AudioManager.ClearCache | core/audio_manager.py:291-308 | the tile cache is emptied first; the audio dictionary keeps exactly the entries of the prefix rule (all are dropped for no path) |
| AudioManagerModel.AudioManager.OnProcessingFinished | core/audio_manager.py:310-318 | the result is stored under "{path}_{mode}" before it is emitted, and get_audio_data returns it afterwards |
| TextureWorker.LastField | ui/audio_texture_worker.py:29 | `split('_')[-1]`: a suffix of the key that holds no underscore |
| TextureWorker.LastFieldAfterUnderscore | ui/audio_texture_worker.py:29 | the last field of `p + "_" + d`, where d has no underscore, is d, whatever p holds |
| TextureWorker.ParseLevelRoundTrip | ui/audio_texture_worker.py:29 | the level read back from any key ending in `_<level>` is that level |
| TextureWorker.DownsampleFactor | ui/audio_texture_worker.py:16-30 | defined exactly for levels >= -3 (Python's negative indexing; lower raises IndexError) and then at least 1 |
| TextureWorker.DownsampleFactorValues | ui/audio_texture_worker.py:16-30 | levels 0, 1 and 2 give 1, 16 and 128; level 3 or more gives 1; -1 gives 128 |
| TextureWorker.CeilDivIsCeiling | ui/audio_texture_worker.py:42 | the number of columns kept is the ceiling of (e - s) / ds |
| TextureWorker.StepSlice | ui/audio_texture_worker.py:42 | `row[s:e:ds]`: ceil((min(e, len) - s) / ds) entries, entry j being row[s + j·ds] |
| TextureWorker.Normalise | ui/audio_texture_worker.py:46 | the value is in [0, 1]; -80 dB and below give 0, 0 dB and above give 1, and in between (db + 80) / 80 |
| TextureWorker.NormaliseRow | ui/audio_texture_worker.py:46 | every entry of the row normalised, the length kept |
| TextureWorker.RenderTile | ui/audio_texture_worker.py:23-57 | a request older than 5 s (strictly) gives nothing; a result needs a parsable level >= -3 and a non-empty window; it carries the colormap, a width of at least 1, one row per mel bin, and values in [0, 1] |
| TextureWorker.RenderTileShape | ui/audio_texture_worker.py:25-53 | a fresh request for a key ending in level 0..2 renders exactly the columns s, s+ds, ... below e: width ceil((e - s) / ds), height the mel-bin count |
| TileView.LevelForZoom | ui/audio_visualization_item.py:87-94 | the level is always 0, 1 or 2 |
| TileView.LevelForZoomBands | ui/audio_visualization_item.py:87-94 | the level never gets finer as the zoom goes out; it is 0 exactly below 50 ms per pixel, 1 exactly from 50 to below 800, and 2 from 800 |
| TileView.TileDuration | ui/audio_visualization_item.py:19 | every level's tile lasts at least 5000 ms |
| TileView.MakeKeyParses | ui/audio_visualization_item.py:96-100 | the key is "" exactly when no audio is loaded; otherwise the worker reads the level back from it |
| TileView.MakeKeyColormap | ui/audio_visualization_item.py:100 | keys for two different colormaps differ, so a tile of the old colormap is never reused |
| TileView.Range | ui/audio_visualization_item.py:114 | `list(range(a, b))`: b - a entries (none when b <= a), entry i being a + i |
| TileView.VisibleTileIdsExactly | ui/audio_visualization_item.py:102-114 | an id is listed exactly when audio is loaded and max(0, floor(x_min/d)) <= id <= min(floor(duration/d), floor(x_max/d)); the ids ascend |
| TileView.VisibleTilesCover | ui/audio_visualization_item.py:102-161 | every time in the visible part of the audio lies in the span of a listed tile |
| TileView.TileSpanBounds | ui/audio_visualization_item.py:157-161 | a listed tile's span lies inside [0, duration] and is at most one tile duration long |
| TileView.ZeroWidthLastTile | ui/audio_visualization_item.py:109-161 | when the duration is k whole tiles and the view reaches it, tile k is listed and its span is empty |
| TileView.PaintPlan | ui/audio_visualization_item.py:118-144 | when the paint loop runs, its level is 0, 1 or 2 |
| TileView.PaintTilesKeepsCache | ui/audio_visualization_item.py:151-179 | the tile loop only reorders the cache: every key keeps its tile, the size is kept, and exactly one thing is drawn per tile |
| TileView.PaintTilesRequests | ui/audio_visualization_item.py:172-191 | starting with no requests, a paint requests exactly the visible tiles whose key missed the cache and was not pending: every such tile is requested, every request is such a miss whose key reads back as the level, no key is requested twice, and the pending set grows by exactly the requested keys |
| TileView.PaintTilesComplete | ui/audio_visualization_item.py:172-191 | every visible tile whose key missed the cache and was not pending when the paint began is requested |
| TileView.RequestKeysGrow | ui/audio_visualization_item.py:181-191 | one tile keeps the requests made so far and, on a miss whose key is not pending, requests that key |
| TileView.PaintStepRequests | ui/audio_visualization_item.py:172-191 | one tile of the loop keeps the property above |
| TileView.RequestedOnceAppend | ui/audio_visualization_item.py:182-191 | appending a request for a missed key that is not pending keeps the property above |
| TileView.AudioVisualizationItem.constructor | ui/audio_visualization_item.py:25-33 | no audio, the "inferno" colormap, no cache, nothing pending |
| TileView.AudioVisualizationItem.SetTileCache | ui/audio_visualization_item.py:39-41 | the cache is the injected one; nothing else changes |
| TileView.AudioVisualizationItem.SetAudioData | ui/audio_visualization_item.py:43-48 | the new audio is set and the pending set is emptied |
| TileView.AudioVisualizationItem.SetColormap | ui/audio_visualization_item.py:62-66 | the new colormap is set and the pending set is emptied |
| TileView.AudioVisualizationItem.PaintTile | ui/audio_visualization_item.py:152-191 | one pass of the tile loop: the cache, the pending set, the drawn operations and the requests become one step of the paint specification |
| TileView.AudioVisualizationItem.Paint | ui/audio_visualization_item.py:116-193 | with no audio, no cache or no view it draws and requests nothing and changes nothing; otherwise the cache, the pending set, the operations and the requests are those of the paint specification over the visible ids |
| TileView.AudioVisualizationItem.OnTileReady | ui/audio_visualization_item.py:196-208 | with no cache nothing changes; otherwise the tile is put, and the key leaves the pending set exactly when the put did not raise |
| DataStore.SegmentExact | core/data_manager.py:21-23 | a row is in the segment exactly when it is in the table and its time lies in [start, end]; an empty table gives an empty segment |
| DataStore.PasteBlock | core/data_manager.py:42-92 | the pasted block has the input's rows and gaps with its first row at at_ms; below 50 rows it is the sorted block, shifted, and sorted; from 50 rows it is the block as given, shifted |
| DataStore.PasteModesAgree | core/data_manager.py:63-92 | on a block already in time order both paste paths produce the same shifted block |
| DataStore.Overwrite | core/data_manager.py:69-111 | the result keeps every existing row outside [min, max] of the block, adds the whole block, is sorted and is numbered 1..n |
| DataStore.SortedMinMax | core/data_manager.py:69-70 | on a sorted block the min and max times are its first and last rows' times |
| DataStore.PasteLayout | core/data_manager.py:69-77 | on a sorted table a paste is, up to ids, the rows before the block, then the block in time order, then the rows after it |
| DataStore.MergeLayout | core/data_manager.py:72-76 | sorting the kept rows with the block puts the earlier rows first, then the block, then the later rows |
| DataStore.MergePieces | core/data_manager.py:74-76 | sorting (before + after) + block, with the block between the two in time, gives before + sorted block + after |
| DataStore.DeleteKeepsTimes | core/data_manager.py:118-140 | delete keeps exactly the rows outside [start, end], with their times and content; the result is numbered 1..n, stays sorted, and on a sorted table is the rows before start then the rows after end |
| DataStore.DeleteNothing | core/data_manager.py:126-140 | deleting a range that holds no row leaves a numbered table unchanged |
| DataStore.RestoreAfterDelete | core/data_manager.py:42-140 | deleting [start, end] and pasting the deleted rows back at their earliest time restores a sorted, numbered table exactly (what undoing a delete relies on) |
| DataStore.DeleteAfterPaste | core/data_manager.py:42-140 | deleting the span of a block just pasted gives what deleting that span before the paste gives: the block, and only the block, is gone |
| DataStore.FrameIndexAt | core/data_manager.py:244-254 | none on an empty table; otherwise an index within the table when one is found |
| DataStore.FrameAtMs | core/data_manager.py:229-242 | a row exactly when the index lookup finds one, and then that row |
| DataStore.FrameIndexIsFloor | core/data_manager.py:244-254 | on a sorted table the lookup gives the last row at or before t, and none exactly when the table is empty or starts after t |
| DataStore.IssuesUpToEmpty | core/data_manager.py:205-214 | the per-channel checks report nothing exactly when every colour is within 0..15 and every function within 0..3 |
| DataStore.ValidationIff | core/data_manager.py:196-216 | the check passes exactly on a non-empty table with no repeated time and every value in range; a failed check always reports an issue |
| DataStore.StrictlySortedHasNoDuplicate | core/data_manager.py:204 | a table strictly sorted by time has no repeated time |
| DataStore.DataManager.constructor | core/data_manager.py:6-8 | an empty table without columns (`pd.DataFrame()`) |
| DataStore.DataManager.ReassignFrameIds | core/data_manager.py:175-177 | ids become 1..n and nothing else about any row changes |
| DataStore.DataManager.PasteFrames | core/data_manager.py:42-115 | False and no change for an empty block; a block pasted into a table without columns raises (KeyError on 'frame_time_ms') and changes nothing; otherwise True, and the table is the paste specification's, sorted and numbered 1..n |
| DataStore.DataManager.DeleteSegment | core/data_manager.py:118-140 | False and no change on an empty table; otherwise True and the delete specification's table, sorted and numbered |
| DataStore.DataManager.GetFrameIndexAt | core/data_manager.py:244-254 | the binary search gives the floor index of the specification |
| DataStore.DataManager.GetFrameAt | core/data_manager.py:229-242 | the row at the floor index, or none |
| DataStore.DataManager.ValidateTimelineIntegrity | core/data_manager.py:196-216 | the loop over channels collects exactly the specification's verdict and issues |
| Keyframes.SortByTime | core/data_manager.py:106-107 | the sorted table is a permutation of the input (same multiset of rows) in time order |
| Keyframes.SortOfSorted | core/data_manager.py:63-76 | sorting a table already in time order leaves it as it is |
| Keyframes.SortKeepsEarlierPrefix | core/data_manager.py:74-76 | rows that all precede the rest stay in front, in their order, when the table is sorted |
| Keyframes.SortMovesLaterSuffix | core/data_manager.py:74-76 | rows that all follow the rest end up behind it, in their order, when the table is sorted |
| Keyframes.SortBounds | core/data_manager.py:63-70 | sorting keeps every row inside any time bounds the input lies in |
| Keyframes.MinTime | core/data_manager.py:69 | the minimum time: at most every row's time and equal to one of them |
| Keyframes.MaxTime | core/data_manager.py:70 | the maximum time: at least every row's time and equal to one of them |
| Keyframes.Within | core/data_manager.py:21-23 | the selected rows all lie in [start, end] and are no more than the table's |
| Keyframes.Outside | core/data_manager.py:72-73 | the kept rows all lie outside [start, end] and are no more than the table's |
| Keyframes.SortedSplit | core/data_manager.py:122-131 | a sorted table is its rows before start, then those in [start, end], then those after end; dropping the middle leaves the first and last parts |
| Keyframes.SelectionsSorted | core/data_manager.py:21-23 | selections of a sorted table stay sorted |
| Keyframes.RenumberNumbers | core/data_manager.py:175-177 | renumbering gives ids 1..n and keeps every time |
| Keyframes.RenumberOfNumbered | core/data_manager.py:175-177 | renumbering a table already numbered 1..n changes nothing |
| Keyframes.ShiftKeepsGaps | core/data_manager.py:66-92 | a shift keeps every gap between two rows, and so keeps a sorted block sorted |
| Keyframes.ShiftByZero | core/data_manager.py:66-67 | shifting by zero changes nothing |
| Keyframes.ChannelSum | ui/timeline_widget.py:247 | the brightness sum is never negative when no colour value is |
| FrameLookup.Candidate | ui/timeline_widget.py:1208-1247 | the candidate is a valid index, either the one just before or the one at the left search position |
| FrameLookup.Snap | ui/timeline_widget.py:1195-1225 | the snapped time is t itself or a keyframe's time within the tolerance; with no keyframes it is t |
| FrameLookup.FrameAt | ui/timeline_widget.py:1227-1252 | a found frame is a row of the table, returned with its own time, within the tolerance; none on an empty table |
| FrameLookup.CandidateIsNearest | ui/timeline_widget.py:1207-1219 | on sorted times no keyframe is closer to t than the candidate |
| FrameLookup.CandidateTieGoesEarlier | ui/timeline_widget.py:1219-1246 | of two equally near neighbours the earlier is taken |
| FrameLookup.SnapIffWithin | ui/timeline_widget.py:1195-1225 | on sorted times t moves exactly when some keyframe lies within the tolerance, and then to a nearest keyframe |
| FrameLookup.FrameAtAgreesWithSnap | ui/timeline_widget.py:1195-1252 | the frame lookup and the snap agree on the time found; the lookup finds nothing exactly when no keyframe is within the tolerance |
| Common.Clip | ui/audio_track_widget.py:32 | the result lies in [lo, hi], equals x inside and the nearer bound outside |
| Common.Trunc | ui/audio_track_widget.py:28-37 | `int()` on a float truncates toward zero |
| Common.SearchLeft | ui/timeline_widget.py:1208 | on sorted input the split point: every entry before it below x, every entry from it at or above x |
| Common.SearchRight | core/data_manager.py:238-250 | on sorted input the split point: every entry before it at or below x, every entry from it above x |
| Common.BisectRight | core/data_manager.py:250 | the binary search returns exactly the right split point |
| Common.SearchRightUnique | core/data_manager.py:250 | the right split point of a sorted sequence is unique |
| Common.IntStringRoundTrip | ui/audio_texture_worker.py:29 | `int(str(i)) == i` for every integer, so a level written into a key reads back |
| Common.BitOrShifted | app_logic.py:446-447 | OR-ing a value below 2^k into a multiple of 2^k is addition |
| Common.BitOrBelow | app_logic.py:446-449 | an OR fits in k bits exactly when both operands do |
| History.ExactIndex | core/undo_manager.py:367-376 | the first row at exactly the time, or none exactly when no row has that time |
| History.NearestIndex | core/undo_manager.py:370-371 | a row whose distance to the time is the smallest, the first of equally near rows |
| History.UpdateTarget | core/undo_manager.py:366-376 | a row is chosen exactly when some row lies within 250 ms of the time |
| History.MarkerName | core/undo_manager.py:299-302 | a given non-empty name is used; otherwise the answer to the prompt |
| History.Uniform | core/undo_manager.py:390-394 | all ten channels get the one colour and function |
| History.DeleteRoundTrip | core/undo_manager.py:184-198 | delete raises exactly on an empty range; undo after a delete gives back the store as it was |
| History.CopyRoundTrip | core/undo_manager.py:85-98 | copy raises exactly on an empty range; it puts the range on the clipboard and leaves the table; undo brings back the previous clipboard frames |
| History.CutRoundTrip | core/undo_manager.py:110-132 | cut raises exactly on an empty range; it puts the range on the clipboard and deletes it; undo restores the table and the previous clipboard frames |
| History.ShiftSpan | core/undo_manager.py:158-168 | a shifted sorted block starts at its first time plus the shift and ends at its last time plus the shift |
| History.PasteThenClear | core/undo_manager.py:166-171 | deleting the span a moved block landed on removes the block: the result is the table before the paste with that span deleted |
| History.MovedBack | core/undo_manager.py:155-174 | pasting the rows in [start, end] back at their first time into the table they were deleted from restores it |
| History.RestoreClear | core/undo_manager.py:193-198 | re-pasting the rows a delete took out restores a sorted, numbered table |
| History.OffsetUndoRestores | core/undo_manager.py:144-174 | with the corrected undo, moving a range and undoing the move gives back the table exactly |
| History.OffsetRoundTrip | core/undo_manager.py:144-174 | with the corrected offset undo (see Findings): a move raises exactly on an empty range; otherwise undo restores the store exactly |
| History.OffsetAsWrittenRestoresWhenClear | core/undo_manager.py:161-174 | the source's undo restores the table when the move overwrote nothing |
| History.OffsetAsWrittenLosesFrames | core/undo_manager.py:144-174 | rows at 0 and 100, moving [0, 0] by +100, and the source's undo: one row remains; the corrected undo gives both back |
| History.UpdateFrameRoundTrip | core/undo_manager.py:362-405 | the edit raises exactly when no row is within 250 ms; undo restores the store exactly |
| History.UpdateFrameTarget | core/undo_manager.py:366-397 | the edited row is the exact match if there is one, else a nearest row within 250 ms; only that row changes, all its channels take the colour and function, its time stays, and its marker changes only when one is given |
| History.AddMarkerRoundTrip | core/undo_manager.py:294-317 | adding raises exactly on an empty table or an empty name; the nearest row gets the name and no other row changes; undo restores the store exactly |
| History.UndoAfterExecute | core/undo_manager.py:8-18 | with the corrected offset undo (see Findings): for every command, undo right after a successful execute restores the store (the clipboard's source aside for copy and cut) |
| History.RedoAfterUndo | core/undo_manager.py:13-25 | with the corrected offset undo (see Findings): re-executing a command after its undo gives the same result as the first execute |
| History.ExecuteCommand | core/undo_manager.py:85-397 | the commands' execute on the store and the clipboard: a raise changes nothing; otherwise the store and the saved state are the specification's |
| History.PastesOnUndo | core/undo_manager.py:124-198 | the undos that call paste_df: a delete or a cut that removed rows, and a move of a non-empty block |
| History.UndoCommand | core/undo_manager.py:95-405 | the commands' undo, with the corrected offset undo (see Findings): an undo that pastes rows into a table without columns raises and changes nothing; otherwise the store becomes the specification's undo of the command |
| History.RestoreRows | core/undo_manager.py:194-198 | saved rows are pasted back at their earliest time; none is a no-op; rows into a table without columns raise and change nothing |
| History.ReplaceRow | core/undo_manager.py:390-397 | one row is replaced; the table stays sorted |
| History.UndoMove | core/undo_manager.py:161-174 | the corrected move undo on the store (see Findings); it raises, changing nothing, exactly when a block was moved and the table has no columns |
| History.UndoManager.constructor | core/undo_manager.py:4-6 | both stacks empty |
| History.UndoManager.Execute | core/undo_manager.py:8-11 | a raise changes neither data nor stacks; otherwise the command is pushed on the undo stack and the redo stack is cleared |
| History.UndoManager.Undo | core/undo_manager.py:13-18 | with the corrected offset undo (see Findings): nothing on an empty stack; otherwise the top is popped and undone; it is pushed on the redo stack unless the undo raises, in which case the data are unchanged and the command is on neither stack |
| History.UndoManager.Redo | core/undo_manager.py:20-25 | nothing on an empty stack; otherwise the top is popped and re-executed, and pushed on the undo stack unless it raises |
| AppLogic.PackedByteRange | app_logic.py:446-449 | a packed byte can be appended exactly when the high nibble is below 16 and the low part below 256; otherwise `bytearray.append` raises |
| AppLogic.PackedNibbles | app_logic.py:446-447 | for two values in 0..15 the packed byte is 16·hi + lo, and splitting it recovers both |
| AppLogic.PacketBody | app_logic.py:441-449 | a body that does not raise has two bytes per channel |
| AppLogic.BodyFailsOnward | app_logic.py:441-449 | once one channel's byte raises, the whole packet raises |
| AppLogic.BuildSerialPacket | app_logic.py:437-451 | the append loop builds exactly the packet of the specification, or raises as it does |
| AppLogic.BodyDecodes | app_logic.py:441-449 | with every value in 0..15 the body exists and each channel's four values come back out of its two bytes |
| AppLogic.PacketRoundTrip | app_logic.py:437-451 | with every value in 0..15 the packet is 22 bytes, starts with 0xC0, ends with 0xC1, and byte 1+2i holds (function, red) and byte 2+2i (green, blue) of channel i |
| AppLogic.PacketRaises | app_logic.py:446-449 | the packet raises exactly when some channel has a function or green value outside 0..15 or a red or blue value outside 0..255 |
| AppLogic.AverageRgb | app_logic.py:453-465 | each component is int(sum of the ten values / 10 · 255 / 15) |
| AppLogic.SumBounds | app_logic.py:455-459 | a sum of values in 0..15 lies between 0 and 15 per channel |
| AppLogic.AverageInByte | app_logic.py:461-465 | with all values in 0..15 the average component lies in 0..255 |
| AppLogic.NibbleScaled | app_logic.py:480-482 | int(v · 255 / 15) is exactly 17·v |
| AppLogic.UniformAverage | app_logic.py:453-465 | when all ten channels share a value v, the average component is 17·v, the same as the single-channel scaling |
| AppLogic.KeyboardRgb | app_logic.py:467-483 | a colour exactly for channel -1 (the average) or 0..9 (17 times that channel's values); any other channel raises |
| AppLogic.KeyboardRgbInByte | app_logic.py:467-483 | with all values in 0..15 every component of the keyboard colour lies in 0..255 |
| AppLogic.EditCopyUndoKeepsCopy | app_logic.py:138-145 | as written, undoing an edit-timeline copy leaves the copied rows on the clipboard, whatever it held before |
| AppLogic.EditCopyUndoRestores | core/undo_manager.py:85-98 | with the copy command alone setting the clipboard, undo gives the clipboard its earlier frames back |
| AppLogic.NewEditRows | app_logic.py:263-287 | two rows, 'Start' at 0 and 'End' at duration · 1000, sorted, with every channel value 0 |
| AppLogic.Controller.constructor | app_logic.py:121-168 | empty tables without columns, an empty clipboard and empty stacks |
| AppLogic.Controller.CopySelection | app_logic.py:121-150 | nothing when start >= end or the range is empty; from the source table the clipboard takes the rows with that source and no command is recorded; from the edit table the corrected copy command runs and is recorded |
| AppLogic.Controller.CutSelection | app_logic.py:152-157 | nothing when start >= end; otherwise the cut command runs through the history, raising changing nothing |
| AppLogic.Controller.DeleteSelection | app_logic.py:164-168 | nothing when start >= end; otherwise the delete command runs through the history, raising changing nothing |
| AppLogic.Controller.NewEdit | app_logic.py:263-301 | a fresh table with columns, holding exactly the two new-edit rows, and both stacks emptied (the only caller, the New Edit dialog, passes a positive duration) |
| Calibration.ClosestIn | core/color_calibration.py:76-77 | the index found lies among the entries searched |
| Calibration.ClosestInIsFirstArgmin | core/color_calibration.py:76-77 | `argmin` finds the earliest entry of least distance: none is closer, none before it is as close |
| Calibration.ClosestIsTheFirstArgmin | core/color_calibration.py:74-77 | reverse[i] is the one and only earliest index minimising the distance to i |
| Calibration.ClosestOfEntry | core/color_calibration.py:74-77 | looking up a value the green table holds goes back to an index, no later than the original, holding the same value |
| Calibration.GenerateReverseLut | core/color_calibration.py:70-78 | a new 256-entry table whose entry i is the first argmin for i |
| Calibration.ToDisplay | core/color_calibration.py:96-101 | the green table's entry for 0..15; numpy's negative indexing down to -16; any other index raises |
| Calibration.HardwareOfDisplay | core/color_calibration.py:76-105 | for every level, display then hardware returns a level, no later than it, showing the same green value |
| Calibration.ColorCalibration.constructor | core/color_calibration.py:26-41 | gamma 2.2, gains (1, 0.7, 0.85), the given tables and a reverse table built from the green one |
| Calibration.ColorCalibration.Regenerate | core/color_calibration.py:53-68 | the tables are replaced and the reverse table rebuilt from the green one; nothing else changes |
| Calibration.ColorCalibration.SetGains | core/color_calibration.py:43-48 | the gains are set and the tables regenerated |
| Calibration.ColorCalibration.GetGains | core/color_calibration.py:50-51 | the gains last set |
| Calibration.ColorCalibration.SetGamma | core/color_calibration.py:91-94 | the gamma is set and the tables regenerated |
| Calibration.ColorCalibration.ToHardware | core/color_calibration.py:103-105 | a level in 0..15: the first argmin for the input clipped to 0..255 |
| Calibration.ColorCalibration.SetCustomLut | core/color_calibration.py:107-115 | raises, changing nothing, unless given exactly 16 values; otherwise stores them where nothing reads them and rebuilds the reverse table from the unchanged green table |
| Calibration.Registry.constructor | core/color_calibration.py:18 | no instance yet |
| Calibration.Registry.Obtain | core/color_calibration.py:20-29 | the first call creates and initialises the instance; every later call returns the same instance and does not re-initialise it |
| KeyboardDevice.Tag | core/keyboard_device_manager.py:100-113 | a protobuf tag carries its field number above the three wire-type bits |
| KeyboardDevice.TagsMatchFields | core/keyboard_device_manager.py:88-113 | 0x0a, 0x10, 0x1a and 0x22 are the tags of fields 1 to 4 with the declared wire types |
| KeyboardDevice.ByteOf | core/keyboard_device_manager.py:100-113 | `bytes([v])`: the byte exactly for 0..255; otherwise ValueError |
| KeyboardDevice.LowByte | core/keyboard_device_manager.py:109 | `v & 0xFF`: v itself within 0..255 and always congruent to v modulo 256 |
| KeyboardDevice.Request | core/keyboard_device_manager.py:80-115 | the request is built exactly when the path and id lengths and the action fit in a byte |
| KeyboardDevice.BuildRequest | core/keyboard_device_manager.py:80-115 | the appending builder yields the request of the specification, or raises as it does |
| KeyboardDevice.ReadFieldOf | core/keyboard_device_manager.py:100-113 | a length-delimited field below 128 bytes reads back with its content and the rest |
| KeyboardDevice.ReadColourOf | core/keyboard_device_manager.py:106-109 | the optional colour field reads back as the three low bytes, or as absent |
| KeyboardDevice.RequestRoundTrip | core/keyboard_device_manager.py:96-115 | with path and id under 128 bytes and action under 128, a standard protobuf reader recovers path, action, colour bytes and id |
| KeyboardDevice.LongPathNotOneByte | core/keyboard_device_manager.py:100 | a path of 128 to 255 bytes is built but its single length byte is not a valid varint, so the request does not parse |
| KeyboardDevice.BigEndianRoundTrip | core/keyboard_device_manager.py:55 | `to_bytes(4, "big")` reads back to the same length |
| KeyboardDevice.GrpcFrame | core/keyboard_device_manager.py:47-56 | a frame exactly for payloads below 2^32 bytes: flag byte 0, four length bytes, then the payload |
| KeyboardDevice.FrameRoundTrip | core/keyboard_device_manager.py:47-56 | unwrapping a frame gives back the payload |
| KeyboardDevice.KeyboardDeviceManager.constructor | core/keyboard_device_manager.py:28-41 | not connected, nothing sent, no colour remembered; the strip is the target, channel 0, offset 0 |
| KeyboardDevice.KeyboardDeviceManager.Connect | core/keyboard_device_manager.py:121-134 | an answered post sets initialised and zero frames sent; otherwise nothing changes; the last colour is kept |
| KeyboardDevice.KeyboardDeviceManager.Disconnect | core/keyboard_device_manager.py:136-139 | not initialised and zero frames sent; the last colour is kept |
| KeyboardDevice.KeyboardDeviceManager.IsConnected | core/keyboard_device_manager.py:141-142 | true exactly when initialised |
| KeyboardDevice.KeyboardDeviceManager.SendColor | core/keyboard_device_manager.py:144-168 | false without posting when not initialised; true without posting for the last colour; otherwise an answered post remembers the colour and counts one frame, and an unanswered one changes nothing |
| KeyboardDevice.KeyboardDeviceManager.ResetStats | core/keyboard_device_manager.py:170-177 | zero frames sent and no colour remembered |
| KeyboardDevice.KeyboardDeviceManager.SetDevicePath | core/keyboard_device_manager.py:183-185 | the path is replaced; the connection, the counters, the target, the channel and the offset are unchanged |
| TimelineGroup.SyncedRange | ui/timeline_group_widget.py:108-118 | the timeline's new range is as wide as the narrower of the audio range and the timeline's current width, and has the same centre as the audio range; an audio range no wider than the timeline is taken as it is |
| TimelineGroup.AudioShareBounds | ui/timeline_group_widget.py:143-146 | for a height ratio within [0, 5], the audio track's share `int(total * height / 5)` lies between 0 and the total |
| TimelineGroup.TotalNonNegative | ui/timeline_group_widget.py:143 | the splitter total of sizes that are all non-negative is non-negative |
| TimelineGroup.TimelineGroupWidget.constructor | ui/timeline_group_widget.py:32-59 | the track is shown, no sync is under way, and the splitter sizes are 400 and 80 |
| TimelineGroup.TimelineGroupWidget.SyncAudioToTimeline | ui/timeline_group_widget.py:93-100 | during a sync, or with the track hidden, the track is left alone; otherwise the track takes the timeline's range, clamped to its audio, and announces nothing |
| TimelineGroup.TimelineGroupWidget.SyncTimelineToAudio | ui/timeline_group_widget.py:102-121 | during a sync nothing moves; otherwise the timeline takes the synced range, and the echo back to the track is turned away, so the track keeps its range |
| TimelineGroup.TimelineGroupWidget.OnAudioVerticalZoom | ui/timeline_group_widget.py:88-91 | the track zooms vertically about its middle only while it is shown |
| TimelineGroup.TimelineGroupWidget.SetAudioHeight | ui/timeline_group_widget.py:141-146 | two sizes with the old total: the audio share, and the rest for the timeline; from sizes with no negative part and a ratio within [0, 5], neither part is negative |
| TimelineGroup.TimelineGroupWidget.SetPlaybackHeadTime | ui/timeline_group_widget.py:155-157 | both playheads are at the new time; no range changes |
| AudioTrack.XRangeFor | ui/audio_track_widget.py:129-147 | with no audio, [0, 1000]; with audio, a range within [0, duration]; a range already inside is kept; an empty or inverted clamped range becomes the whole track |
| AudioTrack.PaddedRange | ui/audio_track_widget.py:162 | a padded range contains the unpadded one, keeps its centre, and is wider by twice the padding fraction |
| AudioTrack.ZoomedHeight | ui/audio_track_widget.py:186-197 | the zoomed height lies within [10, n_mels] whenever n_mels is at least 10 |
| AudioTrack.PlaceRange | ui/audio_track_widget.py:200-215 | the placed range has the new height, fits in [0, n_mels] when the height does, and starts where the centre's ratio puts it when no shift is needed |
| AudioTrack.VerticalZoom | ui/audio_track_widget.py:181-215 | the new y range is between 10 and n_mels high and lies inside [0, n_mels] |
| AudioTrack.ZoomKeepsCentre | ui/audio_track_widget.py:188-204 | when no shift is needed, the zoom centre sits at the same fraction of the new range's height as of the old |
| AudioTrack.TickIndex | ui/audio_track_widget.py:32 | always a valid row of the frequency table; the truncated value inside the table, row 0 below it |
| AudioTrack.TickString | ui/audio_track_widget.py:26-38 | with no frequency table, the whole number of the value; otherwise the frequency at the clipped row, in kilohertz from 1000 Hz up, as a whole number below |
| AudioTrack.AudioTrackWidget.constructor | ui/audio_track_widget.py:50-80 | no audio, x over [0, 1000], y over the 128 mel bands, no sync, nothing announced |
| AudioTrack.AudioTrackWidget.OnRangeChanged | ui/audio_track_widget.py:123-127 | the current x range is announced exactly when the change did not come from `set_x_range`; the view is unchanged |
| AudioTrack.AudioTrackWidget.SetXRange | ui/audio_track_widget.py:129-147 | the x range becomes the clamped range, no announcement is added, and the guard is down again afterwards |
| AudioTrack.AudioTrackWidget.SetAudioData | ui/audio_track_widget.py:149-162 | the track takes the audio; with audio the y range is all its mel bands and the x range the whole track padded by 2%, and the new x range is announced; without audio the view is unchanged |
| AudioTrack.AudioTrackWidget.ResetYRange | ui/audio_track_widget.py:173-179 | the y range becomes all the spectrogram's mel bands, or 128 with no audio; no other field changes |
| AudioTrack.AudioTrackWidget.ZoomVertical | ui/audio_track_widget.py:181-215 | the y range becomes the vertical zoom of the old one, with n_mels from the spectrogram or 128 with no audio; nothing else changes |
| AudioTrack.AudioTrackWidget.SetPlaybackHeadTime | ui/audio_track_widget.py:164-166 | the playhead is at the new time; nothing else changes |
| Scatter.ScaleInByte | utils/numba_funcs.py:84-86 | a 4-bit level times 17 lies in 0..255, and 15 becomes 255 |
| Scatter.CreateScatterData | utils/numba_funcs.py:66-89 | five new arrays of frames · channels entries; entry k is frame k / n and channel k % n: the frame's time, the channel's row, and its three levels scaled by 17 |
| Scatter.WriteEntry | utils/numba_funcs.py:78-87 | one step of the fill writes entry f · n + c and keeps every entry before it |
| Scatter.EntryOf | utils/numba_funcs.py:78-83 | the entry for frame f and channel c holds that frame's time, that channel's row and its scaled levels |
| Scatter.SlotsDistinct | utils/numba_funcs.py:78-87 | two (frame, channel) pairs with the same entry are the same pair, so no entry is written twice |
| TimelineTools.ShiftClickRegion | ui/timeline_tools.py:103-117 | with a selection wider than 1 ms, a shift-click moves the nearer end to the click; otherwise the region spans playhead and click; the region is never inverted |
| TimelineTools.DragRegion | ui/timeline_tools.py:155-160 | the dragged region runs from the lower to the higher of anchor and mouse position |
| TimelineTools.SelectionTool.constructor | ui/timeline_tools.py:88-92 | no drag, no drag start, snapping on, not active |
| TimelineTools.SelectionPress | ui/timeline_tools.py:94-146 | handled exactly for the left and right buttons: shift-click adjusts the region; ctrl-click inside the selection starts an offset drag; a press on an edge starts that edge's drag; elsewhere a region drag starts and, unless playing, the playhead moves to the snapped time; right click asks for the context menu; a well-formed drag state stays well formed |
| TimelineTools.SelectionTool.Press | ui/timeline_tools.py:94-146 | the tool's new drag state and region, the handled flag and the widget call are exactly SelectionPress of the old state and the event |
| TimelineTools.SelectionMove | ui/timeline_tools.py:148-184 | handled exactly during a drag: a region drag spans anchor and mouse position; an edge drag moves that edge to the snapped time, or the raw time with shift held; an offset drag reports the distance from its start; the drag state is kept |
| TimelineTools.SelectionTool.Move | ui/timeline_tools.py:148-184 | the new region, the handled flag and the widget call are exactly SelectionMove of the drag state and the event |
| TimelineTools.ReleaseEffect | ui/timeline_tools.py:186-195 | a release finishes the offset drag exactly when one was under way, finishes the region selection exactly after an edge drag, and asks nothing otherwise |
| TimelineTools.SelectionTool.Release | ui/timeline_tools.py:186-195 | always handled; the widget call is ReleaseEffect of the old drag mode; the drag is cleared and snapping turned back on |
| TimelineTools.PanDelta | ui/timeline_tools.py:221-224 | the pixel offset converted into view units by the ratio of view width to plot width; 0 for a plot of no width |
| TimelineTools.HandTool.constructor | ui/timeline_tools.py:205-208 | not panning, no start position |
| TimelineTools.HandPress | ui/timeline_tools.py:210-216 | the left and middle buttons start a pan from the mouse's screen position; other buttons change nothing |
| TimelineTools.HandTool.Press | ui/timeline_tools.py:210-216 | the new pan state and the handled flag are exactly HandPress of the old pan state and the event |
| TimelineTools.HandMove | ui/timeline_tools.py:218-229 | while panning from a known position, pans the view by the converted offset and moves the start to the mouse position; otherwise not handled and nothing changes |
| TimelineTools.HandTool.Move | ui/timeline_tools.py:218-229 | the new pan state, the handled flag and the pan request are exactly HandMove of the old pan state and the event |
| TimelineTools.HandRelease | ui/timeline_tools.py:231-237 | a pan ends and forgets its start; handled exactly when a pan was under way |
| TimelineTools.HandTool.Release | ui/timeline_tools.py:231-237 | the new pan state and the handled flag are exactly HandRelease of the old pan state |
| TimelineTools.ToolManager.constructor | ui/timeline_tools.py:254-262 | the selection tool is current and active, the hand tool inactive, no temporary tool |
| TimelineTools.ToolManager.ActiveTool | ui/timeline_tools.py:264-269 | the temporary tool while there is one, else the current tool |
| TimelineTools.ToolManager.SetTool | ui/timeline_tools.py:271-276 | the tool becomes current; switching to another tool deactivates the old one and activates the new one; choosing the same tool changes nothing |
| TimelineTools.ToolManager.Press | ui/timeline_tools.py:278-285 | the middle button always makes the hand the temporary, active tool and gives it the press (HandPress), leaving the selection tool and region alone; other presses go to the active tool: the hand tool's new pan state and answer are HandPress, the selection tool's new drag state, region and widget call are SelectionPress, and the other tool is untouched |
| TimelineTools.ToolManager.Move | ui/timeline_tools.py:287-288 | the move goes to the active tool: with the hand, the new pan state and pan request are HandMove and the region is kept; with the selection tool, the new region and widget call are SelectionMove and the hand is untouched |
| TimelineTools.ToolManager.Release | ui/timeline_tools.py:290-298 | the release goes to the active tool (the hand's new pan state is HandRelease; the selection tool clears its drag and answers ReleaseEffect of the old mode), the other tool is untouched; a middle-button release ends a temporary tool and deactivates the hand tool |
| LodAggregation.ClampLeadIn | ui/timeline_widget.py:77-79 | only the first frame changes, and only its time, which becomes the later of its time and the view's left edge |
| LodAggregation.SliceEnds | ui/timeline_widget.py:58-67 | the slice starts at the last frame at or before the view's left edge (or the first frame) and ends one frame past the last frame at or before its right edge, when there is one |
| LodAggregation.VisibleWindow | ui/timeline_widget.py:55-79 | the visible frames are the slice, with the first frame's time raised to the view's left edge |
| LodAggregation.VisibleSorted | ui/timeline_widget.py:55-79 | raising the first time keeps the visible frames in time order |
| LodAggregation.FirstAfter | ui/timeline_widget.py:173-175 | the first frame later than t, or none exactly when no frame is later |
| LodAggregation.MedianWithin | ui/timeline_widget.py:177 | the median of values within bounds lies within those bounds |
| LodAggregation.MedianGapNonNegative | ui/timeline_widget.py:177 | the median gap between sorted frame times is not negative |
| LodAggregation.RawWidths | ui/timeline_widget.py:168-181 | each block reaches the next frame; the last reaches the next frame of the whole timeline, or is the median gap (50 ms with fewer than two frames) |
| LodAggregation.RawWidthsNonNegative | ui/timeline_widget.py:168-181 | no raw width is negative, and the last is positive when a later frame exists |
| LodAggregation.Edges | ui/timeline_widget.py:194 | n + 1 evenly spaced edges from the first to the last time |
| LodAggregation.EdgesIncrease | ui/timeline_widget.py:194 | for a positive span the edges strictly increase |
| LodAggregation.BinOfHalfOpen | ui/timeline_widget.py:196-200 | a time falls in bin k exactly when it lies in [edge k, edge k + 1); a time at the last edge falls in no bin and is dropped |
| LodAggregation.BestInBin | ui/timeline_widget.py:202 | the frame of highest score in a bin, the earliest one on a tie; none exactly when the bin is empty |
| LodAggregation.PicksAreInBins | ui/timeline_widget.py:202-203 | every pick lies in the bin it was picked for |
| LodAggregation.CollectOneBlockPerBin | ui/timeline_widget.py:205-214 | the collected blocks are one per non-empty bin, skipping a bin whose pick repeats the previous block's frame |
| LodAggregation.BinBlocksIncrease | ui/timeline_widget.py:205-214 | block starts strictly increase and stay below the next unprocessed edge |
| LodAggregation.CollectBlocks | ui/timeline_widget.py:205-214 | the loop over bins builds exactly the collected blocks |
| LodAggregation.BlockWidths | ui/timeline_widget.py:225-230 | each block reaches the next block's start, and the last reaches the last visible time |
| LodAggregation.BlockWidthsPositive | ui/timeline_widget.py:225-230 | with increasing starts all below the last time, every width is positive |
| LodAggregation.BinnedRowsOnePerBin | ui/timeline_widget.py:205-221 | the binned rows are the per-bin blocks, in increasing order and starting below the last time |
| LodAggregation.BinnedBlocks | ui/timeline_widget.py:186-233 | with fewer bins than frames and a positive span, the aggregate is the per-bin blocks, not raw, with positive widths, the last block ending at the last time, and the frames at the last time dropped from every bin |
| LodAggregation.ZeroSpan | ui/timeline_widget.py:189-192 | with every visible frame at one time, the aggregate is the first frame alone, flagged raw and without widths |
| LodAggregation.RawModeChoice | ui/timeline_widget.py:161-192 | with at least as many bins as frames the frames are shown raw with their raw widths; with fewer bins and a positive span they are binned |
| LodAggregation.AggregateData | ui/timeline_widget.py:157-233 | computes the aggregate of the visible frames |
| Importance.BaseScore | ui/timeline_widget.py:247-255 | a blackout frame scores 1000; any other frame's base score is at most 99 |
| Importance.JumpScore | ui/timeline_widget.py:257-268 | the brightness jump score lies in [0, 100], and is 0 for a single frame |
| Importance.FrameDistance | ui/timeline_widget.py:274-291 | the summed per-channel colour distance is not negative |
| Importance.PrevDistance | ui/timeline_widget.py:274-293 | the distance to the previous frame is 0 for the first frame and never negative |
| Importance.NextDistance | ui/timeline_widget.py:274-293 | the distance to the next frame is 0 for the last frame and never negative |
| Importance.ColourScore | ui/timeline_widget.py:296-298 | the colour change score is at most 500, and not negative for non-negative distances |
| Importance.Scores | ui/timeline_widget.py:235-302 | one score per frame |
| Importance.ScoreBands | ui/timeline_widget.py:247-302 | a blackout frame scores at least 1000; any other frame at most 99 + 100 + 500 |
| Importance.BlackoutOutranks | ui/timeline_widget.py:247-302 | a blackout frame always outscores a lit frame, so a bin holding one picks a blackout |
| Importance.ImportanceScores | ui/timeline_widget.py:235-302 | the loop over channels yields exactly the per-frame scores |
| Importance.AddPrevChannel | ui/timeline_widget.py:274-283 | one channel more is added to every frame's distance to its previous frame |
| Importance.AddNextChannel | ui/timeline_widget.py:274-291 | one channel more is added to every frame's distance to its next frame |
| Importance.CombineScores | ui/timeline_widget.py:293-302 | the accumulated distances combine into exactly the per-frame scores |
| RenderWorkerModel.NumBins | ui/timeline_widget.py:83 | `min(n_visible, int(width / 6))`: never more bins than frames, and all frames exactly when the pixels allow it |
| RenderWorkerModel.AdjustLastWidth | ui/timeline_widget.py:98-116 | only the last width changes, and only when there are widths |
| RenderWorkerModel.LastBlockEnds | ui/timeline_widget.py:98-116 | with a later frame in the timeline, the last block ends exactly at the first such frame; with none, it ends at the later of its own end and the view's right edge |
| RenderWorkerModel.LastBlockShortened | ui/timeline_widget.py:103-109 | a block that overran the next frame is cut back to it |
| RenderWorkerModel.LutAt | ui/timeline_widget.py:139-141 | a table lookup succeeds exactly for indices -len..len-1, and a non-negative index reads that entry |
| RenderWorkerModel.RenderArrays | ui/timeline_widget.py:120-141 | the arrays exist exactly when the channel count is in 0..10 and every level has a table entry; then all six have frames · channels entries |
| RenderWorkerModel.RenderLayout | ui/timeline_widget.py:120-141 | entry j · n + c holds frame j's time and width, row c, and channel c's three levels looked up in the calibration tables |
| RenderWorkerModel.ChannelCovered | ui/timeline_widget.py:132-141 | true exactly when every frame's levels in that channel have table entries |
| RenderWorkerModel.FillColours | ui/timeline_widget.py:132-141 | fails exactly when some level has no table entry; otherwise yields the three flat colour arrays |
| RenderWorkerModel.BoundingRect | ui/timeline_widget.py:144-146 | a rectangle from y = -0.5, 10 high, covering every block from its start to its end |
| RenderWorkerModel.ProcessNothingToDraw | ui/timeline_widget.py:50-93 | an empty timeline, an empty view or no bins emits the empty result |
| RenderWorkerModel.ProcessZeroSpan | ui/timeline_widget.py:98-192 | binning frames that all share one time yields a result without widths, which makes the width fix-up raise, so the empty result is emitted |
| RenderWorkerModel.ProcessRawFlag | ui/timeline_widget.py:83-192 | a drawn result is flagged raw exactly when every visible frame got its own bin |
| RenderWorkerModel.RenderWorker.constructor | ui/timeline_widget.py:32-35 | not running |
| RenderWorkerModel.RenderWorker.ProcessData | ui/timeline_widget.py:38-155 | a call during a run emits nothing; otherwise it emits the processed result and is not running afterwards |
| RenderWorkerModel.VisibleSlice | ui/timeline_widget.py:55-79 | the two binary searches and the lead-in clamp compute exactly the visible frames |
| RenderWorkerModel.Compute | ui/timeline_widget.py:47-148 | the steps compute exactly the processed result |
| RenderWorkerModel.EmitAggregated | ui/timeline_widget.py:91-148 | the steps after aggregation compute exactly the emitted result |

## Left out

- I/O and transport are not modelled. This covers CSV load and save in `core/data_manager.py`, the ffmpeg and librosa processing worker in `core/audio_manager.py`, the serial port, and the device output worker.
- KeyboardDevice.KeyboardDeviceManager.SendColor: the HTTP `_post` is the `answered` parameter. The base64 text encoding of the gRPC-Web frame, the uuid request id and the UTF-8 encoding of the device path are not modelled; the path and id are given as bytes.
- KeyboardDevice.KeyboardDeviceManager.SetDevicePath is the only keyboard UI setter modelled; the target, channel and offset setters only store values that nothing in the manager reads.
- Calibration.ColorCalibration.Regenerate: the forward gamma tables are computed with `np.power` on floats; they are parameters here, each 16 entries in 0..255.
- Calibration.ToDisplay and Calibration.ColorCalibration.ToHardware are modelled on one value at a time; the array form of the source applies the same lookup element by element.
- History: the `input()` prompt of the add-marker command is its `answer` parameter.
- History: the paste, insert-frame, insert-effect and update-marker commands, and the controller's `paste_selection`, are not part of this model.
- Importance.Scores: float32 rounding of the scores is not modelled; the scores are reals. The square root is the `root` parameter, and the bound lemmas ask only that it never be negative.
- AudioTrack.TickString: the label is a value (whole number or kilohertz); its formatting to one decimal with a trailing "k" is not modelled.
- Keyframes.SortByTime: `sort_values` with its default quicksort does not promise an order for equal times; the model sorts stably, which is one of the orders the source may produce.
- TimelineTools: `on_wheel` is not modelled, because it calls a method the timeline does not define and the timeline's wheel handler never reaches it. Cursor changes are not modelled either.
- TimelineTools.SelectionTool.Press: the region item's `getRegion` is taken to return its two ends in increasing order, as the region item does by default.
- The spectrogram's colormap and QImage are opaque: the tile renderer yields the normalised matrix.
- Qt threads and queued signals are not modelled: each request and each result is a call, one at a time. numba's `prange` is taken as a sequential loop.
- `get_clipboard` and `get_source_type` are reads of the clipboard's fields; they have no members of their own.
- Painting, viewport transforms, dialogs, video playback, effects generation and packaging are not part of this model.
- History.UndoCommand: the class undoes an offset with the corrected undo (History.UndoMove, whose table is History.OffsetUndo); the source's own undo is History.OffsetUndoAsWritten (see Findings).
- History.UndoCommand: undoing an update-frame or add-marker command whose saved row index is at or past the table's end changes nothing here (History.Undone does the same). The source's `main_df.loc[index, ...] = ...` has no such guard and, on a missing label, appends a row whose time and id are NaN. The source can reach this through its own offset undo, which can shrink the table; the class here runs the corrected offset undo and does not reach it.
- History.NearestIndex: `argsort` with its default quicksort does not promise which of two equally near rows comes first; the model takes the first, which is one of the rows the source may pick.
- TileView.AudioVisualizationItem.Paint: one `now` is the timestamp of every request of a paint; the source reads the clock once per request, so its timestamps within one paint may differ slightly.
- Common.ParseInt: Python's `int()` also accepts surrounding whitespace, `_` between digits and non-ASCII digits; the model rejects them. The only text it reads is the level a tile key ends with, which the program writes with `str()`.
- AudioTrack.AudioTrackWidget.SetAudioData: the view announces its x range once after the new ranges are set; the announcement pyqtgraph makes for the y change alone, and its widening of a zero-width range, are not modelled. The frequencies passed to the axis are the `freqs` parameter of AudioTrack.TickString, and the visualization item's copy of the audio is TileView's.
- AudioTrack.AudioTrackWidget.ZoomVertical: the range announcement pyqtgraph makes for a y change is not modelled.
- AudioTrack.AudioTrackWidget.ResetYRange: the method keeps the emitted x ranges unchanged; pyqtgraph's `sigRangeChanged` also fires on a y change, and that announcement is not modelled.
- TimelineGroup.TimelineGroupWidget.OnAudioVerticalZoom: as for ZoomVertical, the range announcement pyqtgraph makes for the y change is not modelled, so the emitted x ranges stay as they were.
- AppLogic.Controller.CopySelection: on the edit timeline the model runs the corrected copy command, which saves the earlier clipboard before it sets the new one; the source sets the clipboard first (app_logic.py:138-145), which AppLogic.EditCopyUndoKeepsCopy models (see Findings).
- History.OffsetRoundTrip: times are real numbers here, so a move and its undo give back every time exactly; in float64 `at + (t - first)` can be off by a rounding step, which can defeat the exact-time match of the update-frame command.
- History.DeleteRoundTrip: the store given back is equal as a value over real times; the float64 rounding of times and pandas' index labels are not modelled.
- History.CutRoundTrip: as for History.DeleteRoundTrip, the restored table is equal as a value over real times; float64 rounding and index labels are not modelled.
- DataStore.DataManager.Valid: every table is taken to be in time order, as `save_csv` writes it, as every paste and delete leaves it, and as a new edit builds it; RenderWorkerModel.RenderWorker.ProcessData asks the same of the table it draws. `load_csv` does not sort, and the behaviour of `searchsorted` and the floor lookup on an unsorted CSV is not modelled.

## Findings

| source | as written | input that shows it | evidently intended | confidence | as-written member | corrected member |
|---|---|---|---|---|---|---|
| core/undo_manager.py:161-174 | undoing an offset deletes the landing span and re-pastes the moved frames, so frames the move overwrote are lost | frames at 0 ms and 100 ms; move [0, 0] by +100 ms, then undo: one frame is left | undo gives back the table as it was before the move | not executed | History.OffsetAsWrittenLosesFrames | History.OffsetUndoRestores |
| app_logic.py:138-145 | an edit-timeline copy sets the clipboard before the copy command runs, so the command saves the new rows as the "previous" clipboard | copy a non-empty edit range while the clipboard holds other frames, then undo: the clipboard still holds the copied rows | undoing the copy gives the clipboard back its earlier frames | not executed | AppLogic.EditCopyUndoKeepsCopy | AppLogic.EditCopyUndoRestores |
