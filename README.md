# Log scrubbing, asset listings and sprite bookkeeping, in Dafny

This project models the logic of a small Express server and the sprite logic of its
browser scene. It proves properties of that model.

- **`scrub.dfy` (module `LogScrub`)** models `safeStringify` and its inner `scrub`
  (server.js). A JavaScript object graph is a heap: a map from object identities to
  array, plain-object and function nodes, so it can hold cycles and shared references.
  - `Scrub` is the recursive definition. It threads the visited set (`seen`, the
    `WeakSet`) through every result, including a thrown one.
  - The class `Scrubber` holds that set as a field and performs the walk as the
    server does: it adds an object before visiting its children and fills an
    object's output key by key in a loop.
  - Each `Scrubber` method is proved to produce exactly what `Scrub` defines.
- **`broadcast.dfy` (module `LogBroadcast`)** models the rest of `broadcastLog`:
  - the `data` fallback;
  - the `data: ...\n\n` frame;
  - the fan-out loop, which deletes every client whose write throws.
  It also models `POST /log`, which wraps the request body in an envelope, broadcasts
  it and answers 204. The class `LogHub` owns the client set. `/events` adds to that
  set and its close handler removes from it.
- **`assets.dfy` (module `AssetLists`)** models `/assets/images` and `/assets/audio`.
  Directory listings are inputs, and an unreadable directory is its own case.
  - `path.extname` and `toLowerCase` are written out. Lower-casing covers ASCII
    letters only.
  - The audio route's loop over both roots, with its `seen` set, is a method proved
    equal to a de-duplicating specification function.
- **`sprites.dfy` (module `Sprites`)** models one sprite record and the work on it:
  - the per-frame update: timers, retargeting, random bursts, the speed cap, moving,
    facing, spinning and the spin cooldown;
  - the spawn-placement retry loop;
  - one pair step of the resolve pass.
- **`scene.dfy` (module `SceneModel`)** models the scene state that app.module.js
  mutates: the `sprites` array and the `crazyMode` flag, held as fields of the class
  `Scene`. Its methods are:
  - `toggleCrazyMode`;
  - the texture-load callback of `loadCharacters`, which places and pushes a sprite;
  - the sprite part of one `animate` frame: update every sprite, then the nested
    resolve loops.

Conventions:
- Numbers are Dafny reals.
- Every `Math.random()` result is an input in [0, 1).
- `Math.sqrt`, `Math.sin`, `Math.cos` and `Math.atan2` are a `MathLib` value. The
  model relies only on the laws the proofs need: the square root squares back, the
  sine lies in [-1, 1], and cos² + sin² = 1.
- Distances are compared squared, because `sqrt(a) < b` holds exactly when `a < b²`
  for non-negative b.

A plain-object assignment `out[key] = ...` whose key is `__proto__` invokes the
prototype setter instead of creating an own key. `JSON.parse` does create such own
keys in request bodies, so the model drops that key from the output (`KeptKeys`,
`ProtoKeyDropped`).

## Model

| member | source | states |
|---|---|---|
| `LogScrub.Scrub` | server.js:78-91 | scrubbing only ever adds heap objects to the visited set; a finished result nests arrays/objects no deeper than the depth argument |
| `LogScrub.ScrubItems` | server.js:85 | a finished array map yields one output per element, each nested less deeply than the array's depth; the visited set only grows |
| `LogScrub.ScrubPropValue` | server.js:88 | the value stored for one key (scrubbed, or `[Unserializable: msg]`) nests less deeply than the object's depth |
| `LogScrub.ScrubProps` | server.js:86-90 | an expanded object's output has exactly its own keys in `Object.keys` order (minus `__proto__`), each value nested less deeply |
| `LogScrub.PrimitivesPassThrough` | server.js:79 | null, numbers, booleans and strings come back unchanged and mark nothing visited |
| `LogScrub.NonObjectsBecomeText` | server.js:80-81 | a function becomes `[Function: name]` (`anonymous` when unnamed); undefined and other non-objects become their `String(v)` text |
| `LogScrub.VisitedOrTooDeep` | server.js:82-83 | an already visited object yields exactly `[Circular]`; otherwise at depth <= 0 an array yields `[Array]` and an object `[Object]`; nothing is marked |
| `LogScrub.ObjectKeysKept` | server.js:84-90 | an unvisited object below the depth limit is expanded to an object with exactly its kept keys and is marked visited |
| `LogScrub.ObjectNeverThrows` | server.js:86-90 | scrubbing an object never throws, because every key has its own try/catch |
| `LogScrub.ItemsElementwise` | server.js:85 | when the map finishes, every element was readable and output k is element k scrubbed at d-1, with the visited set the earlier elements left |
| `LogScrub.ArrayReadThrowPropagates` | server.js:85 | an element whose read throws, after elements that all finished, makes the whole array's scrub throw that error |
| `LogScrub.ThrowingReadIsolated` | server.js:88 | a key whose read throws gives the same output as if it held the text `[Unserializable: msg]`: other keys are unaffected |
| `LogScrub.PropsElementwise` | server.js:86-89 | every kept key k appears in the output right after the kept keys before it, and its value is k's own read-and-scrub (or the `[Unserializable: msg]` text), run under the visited set the earlier keys left |
| `LogScrub.ScrubCounted` | server.js:82-85 | every array/object in a finished output stands for a distinct object newly added to the visited set |
| `LogScrub.SafeScrubBounded` | server.js:75-98 | what `broadcastLog` scrubs nests at most 3 levels deep and holds no more arrays/objects than the heap has objects |
| `LogScrub.SelfReferenceIsCircular` | server.js:82-88 | an object holding itself is printed with that key as `[Circular]` (the walk terminates on cycles) |
| `LogScrub.SharedReferenceIsCircular` | server.js:76-88 | `seen` is never cleared: an acyclic object reached twice is expanded at the first visit and `[Circular]` at the second |
| `LogScrub.ProtoKeyDropped` | server.js:86-88 | a `__proto__` own key never reaches the output whatever its value; the next key does |
| `LogScrub.Scrubber.constructor` | server.js:76 | each walk starts with an empty visited set |
| `LogScrub.Scrubber.Walk` | server.js:78-91 | the in-place walk returns exactly `Scrub`'s outcome and leaves the visited set exactly as `Scrub` threads it |
| `LogScrub.Scrubber.WalkItems` | server.js:85 | the `map` over the elements equals `ScrubItems`, outcome and visited set |
| `LogScrub.Scrubber.WalkProp` | server.js:88 | one key's try/catch equals `ScrubPropValue` |
| `LogScrub.Scrubber.WalkProps` | server.js:86-90 | the key loop builds exactly `ScrubProps`'s fields and visited set |
| `LogScrub.SafeStringify` | server.js:75-94 | `safeStringify(v, 3)` with a fresh `WeakSet` equals `Scrub` at depth 3 from an empty set |
| `LogScrub.SafeScrub` | server.js:93 | the tree `safeStringify` prints is `scrub` at depth 3 from an empty visited set; a finished tree is at most 3 levels deep |
| `LogBroadcast.Data` | server.js:96-102 | the payload is the printed tree, or the literal `"[Unserializable]"` when scrubbing threw |
| `LogBroadcast.Frame` | server.js:107 | each event is `data: ` followed by the payload and a blank line |
| `LogBroadcast.Falsy` | server.js:53 | the truthiness test on `req.body` that chooses the `{}` fallback; an object reference is never falsy, so a parsed body object is sent as is |
| `LogBroadcast.Envelope` | server.js:56 | the object `{from: 'client', payload}` keeps exactly the keys `from` and `payload`, in that order |
| `LogBroadcast.SurvivorsMembers` | server.js:104-111 | a client remains exactly when it was connected and its own write succeeded, so one failure affects no one else |
| `LogBroadcast.SurvivorsAppend` | server.js:104-111 | removing dead clients keeps the others in their order |
| `LogBroadcast.SurvivorsNoDuplicates` | server.js:104-111 | the remaining clients still form a set |
| `LogBroadcast.WithoutSplit` | server.js:70 | deleting a client that occurs once removes exactly that occurrence |
| `LogBroadcast.WithoutAbsent` | server.js:70 | deleting an absent client changes nothing |
| `LogBroadcast.WithoutMembers` | server.js:70 | after a delete, the clients are exactly the others, still without repeats |
| `LogBroadcast.BroadcastStep` | server.js:104-111 | one loop iteration records its write and removes only the current client, and only when its write failed |
| `LogBroadcast.LogHeapClosed` | server.js:53-56 | allocating the `{}` fallback for a falsy body and the `{from, payload}` envelope keeps every reference resolvable |
| `LogBroadcast.LogEnvelopeScrub` | server.js:53-56 | the broadcast envelope scrubs to `{from: "client", payload: p}` with p at most two levels deep |
| `LogBroadcast.LogHub.constructor` | server.js:64 | the server starts with no clients |
| `LogBroadcast.LogHub.Subscribe` | server.js:69 | opening `/events` adds the stream to the set once |
| `LogBroadcast.LogHub.Disconnect` | server.js:70 | closing a stream removes exactly that stream |
| `LogBroadcast.LogHub.BroadcastLog` | server.js:73-112 | every connected client gets the same frame of the scrubbed object, in order, and exactly the clients whose write failed are removed |
| `LogBroadcast.LogHub.PostLog` | server.js:51-61 | `/log` broadcasts the `{from: 'client', payload}` envelope of the body (or of `{}` when the body is falsy) and always answers 204 |
| `AssetLists.Lower` | server.js:25 | lower-casing keeps the length, leaves no letter `A`-`Z`, moves each such letter to its lower-case letter (32 code points on) and leaves every other character as it is |
| `AssetLists.LowerIdempotent` | server.js:25 | lower-casing an already lower-cased name changes nothing |
| `AssetLists.FootstepAnyCase` | server.js:40 | `Walking.MP3`, `WALKING.MP3` and `walking.mp3` all lower-case to the excluded `walking.mp3` |
| `AssetLists.LastDot` | server.js:25 | the index found is the last `.` of the name, or -1 when there is none |
| `AssetLists.ExtNameSpec` | server.js:25 | a name has an extension exactly when it has a dot after its first character (and is not `..`); the extension is a dot-led suffix with no further dot |
| `AssetLists.ExtName` | server.js:25 | `path.extname` of an entry name is empty or a dot-led proper suffix of the name (the full behaviour is `ExtNameSpec`) |
| `AssetLists.IsImage` | server.js:23-25 | the image filter: a lower-cased extension among `.png`, `.jpg`, `.jpeg`, `.webp`, so only names with a 4- or 5-character extension pass |
| `AssetLists.IsTrack` | server.js:40 | the audio filter: a lower-cased `.mp3` extension and a name that is not `walking.mp3` in any case |
| `AssetLists.RootPrefix` | server.js:41 | the URL prefix for a root starts and ends with `/` (`/music/` for the music root, `/` otherwise; see `AudioRootPrefixes`) |
| `AssetLists.SelectMembers` | server.js:24-26 | filter-then-prefix lists a URL exactly when it is the prefix plus an accepted entry |
| `AssetLists.SelectAppend` | server.js:24-26 | filtering keeps directory order: it distributes over a split of the listing |
| `AssetLists.SelectUnique` | server.js:24-26 | distinct entries give distinct URLs |
| `AssetLists.ImagesListing` | server.js:19-29 | `/assets/images` is `[]` on a readdir error, else lists `/images/<f>` exactly for names with a png/jpg/jpeg/webp extension in any case, in directory order, without repeats |
| `AssetLists.CollectStep` | server.js:39-44 | one entry of the `forEach`: an accepted entry whose URL is unseen is appended, anything else changes nothing |
| `AssetLists.CollectRoot` | server.js:39-44 | the loop over one root's entries yields the de-duplicated candidates so far, and `seen` holds exactly the URLs output |
| `AssetLists.AudioList` | server.js:32-48 | `/assets/audio` returns the de-duplicated `.mp3` candidates of the roots in order; an unreadable root contributes nothing |
| `AssetLists.AudioRootPrefixes` | server.js:33-41 | `public` entries are served from `/`, `public/music` entries from `/music/` |
| `AssetLists.AllTracksMembers` | server.js:36-46 | a URL is a candidate exactly when some readable root lists an accepted track under it |
| `AssetLists.AudioListing` | server.js:32-48 | the answer lists each such URL, and never the same URL twice |
| `AssetLists.DedupNoDuplicates` | server.js:42 | the `seen` check leaves no repeats and drops no URL entirely |
| `AssetLists.NoFootstepTrack` | server.js:40 | `walking.mp3`, in any letter case, is never offered |
| `AssetLists.DedupIdentity` | server.js:42 | on a list without repeats the `seen` check changes nothing |
| `AssetLists.RootsDisjoint` | server.js:41 | URLs of slash-free `public` names never coincide with `/music/` URLs |
| `AssetLists.AudioCandidates` | server.js:33-46 | with both roots readable, the candidates are the `public` tracks followed by the `public/music` tracks |
| `AssetLists.AudioSeenDropsNothing` | server.js:33-47 | for real listings (distinct, slash-free names) the answer is exactly the `public` tracks followed by the `public/music` tracks |
| `AssetLists.DedupPrefix` | server.js:36-46 | what the first root contributes stays at the front when the second root is read |
| `Sprites.FrameDt` | app.module.js:727 | the frame step is the elapsed time in seconds capped at 0.05, never negative for a monotonic clock |
| `Sprites.Clamp` | app.module.js:926 | the turn step lies within the bounds and equals the wanted turn when that is within them |
| `Sprites.NormalizeUnit` | app.module.js:898 | normalizing a non-zero vector gives length 1 |
| `Sprites.SpeedCap` | app.module.js:897-898 | after `setLength(6.2)` the speed is exactly 6.2; without it the speed was at most 6.2 |
| `Sprites.Retarget` | app.module.js:805-836 | the heading timer is re-armed to [1.2, 3.7) only once it has run out; until then the velocity and wander angle are kept; the wander angle moves at most 0.3 |
| `Sprites.Accelerate` | app.module.js:839-898 | the burst timer is re-armed to [2, 6) only once it has run out; the final speed never exceeds 6.2 |
| `Sprites.Turn` | app.module.js:904-945 | the face timer is re-armed to [0.7, 1.8) only once run out; yaw turns by at most 4 dt, then spins by exactly 8 dt (12 dt in crazy mode) or sways by at most 0.12 dt; the cooldown follows its rule |
| `Sprites.UpdateSprite` | app.module.js:798-946 | one sprite's frame obeys all the timer, cooldown, yaw and motion rules: it moves by its new velocity, stays at its base height, keeps its shape |
| `Sprites.SpawnPoint` | app.module.js:413-451 | at most 50 attempts; a valid point is the first candidate at least 1 from the origin and 0.3 from every sprite; otherwise the point lies on the circle of radius 1 + 0.3 n |
| `Sprites.Candidate` | app.module.js:421-422 | one attempt's point lies in the 20 x 20 square around the origin |
| `Sprites.FallbackRadius` | app.module.js:448 | the fallback circle's radius is at least 1, so the fallback spot is never within 1 of the origin |
| `Sprites.NewSpriteShape` | app.module.js:403-470 | a new sprite stands at its base height 8.1 with cooldown in [1, 4), timers in their ranges, speed at most 1.5 per axis and a positive radius |
| `Sprites.NewSprite` | app.module.js:453-470 | the pushed record stands at the spawn point at its base height (`NewSpriteShape` gives the field ranges) |
| `Sprites.PairStep` | app.module.js:950-985 | one pair step moves only sprites i and j, only their positions, by equal and opposite amounts |
| `Sprites.DistancePush` | app.module.js:952-966 | the distance push acts only when the pair is closer than `6 (ra + rb)` but not on top of each other; it lies along their offset and pushes `a` away from `b` |
| `Sprites.BearingPush` | app.module.js:967-985 | the bearing push acts only when both sprites are off the player's position; it is tangential: orthogonal to the direction from `a` to the player |
| `Sprites.ResolveRow` | app.module.js:949-986 | one row of the pass keeps the number of sprites |
| `Sprites.ResolveFrom` | app.module.js:948-987 | the pass keeps the number of sprites |
| `Sprites.PairStepConserves` | app.module.js:962-983 | a pair step preserves the sums of all x and all z coordinates and every other field |
| `Sprites.ResolveRowConserves` | app.module.js:949-986 | a row of pair steps preserves the coordinate sums and every non-position field |
| `Sprites.ResolveConserves` | app.module.js:948-987 | the whole resolve pass preserves the sums of all sprites' x and z and leaves y and every other field untouched |
| `SceneModel.ForceAll` | app.module.js:330-332 | enabling keeps the number of sprites |
| `SceneModel.ForceSpin` | app.module.js:330-332 | enabling sets one sprite's cooldown to -1 and changes nothing else |
| `SceneModel.ReleaseAll` | app.module.js:353-357 | disabling keeps the number of sprites |
| `SceneModel.ReleaseSpin` | app.module.js:353-357 | disabling gives a spinning sprite a cooldown in [1, 4), leaves a non-spinning one as it is, and changes nothing but the cooldown |
| `SceneModel.ForceAllSpec` | app.module.js:330-332 | enabling sets every cooldown to exactly -1 and changes nothing else |
| `SceneModel.ReleaseAllSpec` | app.module.js:353-357 | disabling changes only sprites with a negative cooldown, each to a value in [1, 4), and nothing but the cooldown |
| `SceneModel.EnableThenDisable` | app.module.js:308-358 | enable then disable leaves every cooldown in [1, 4) and every other field as it was |
| `SceneModel.Scene.constructor` | app.module.js:362 | the scene starts with no sprites and crazy mode off |
| `SceneModel.Scene.ToggleCrazyMode` | app.module.js:308-358 | the flag flips; turning on forces every spin, turning off releases the spinning ones; sprites stay grounded |
| `SceneModel.Scene.LoadCharacter` | app.module.js:402-473 | the texture callback appends one new sprite record and keeps the existing ones and crazy mode. Its point is the first acceptable candidate of at most 50 attempts, and every earlier candidate was rejected. Without one, all 50 attempts were used and the point lies on the fallback circle |
| `SceneModel.Scene.ResolvePass` | app.module.js:948-987 | the nested loops produce exactly the pass `ResolveFrom` defines |
| `SceneModel.Scene.Animate` | app.module.js:727-987 | the frame step is at most 0.05; every sprite obeys the frame rules; the resolve pass then preserves the coordinate sums and leaves every sprite grounded |

## Left out

- I/O and framework plumbing are not modelled: Express setup, static files, `res.json`, `res.sendStatus`, `console`, the SSE headers and the initial `\n` write of `/events`. Directory reads are inputs.
- `JSON.stringify` formatting is the parameter `stringify`. The scrubbed tree holds only primitives, arrays and plain objects, so the model lets it never throw.
- Exceptions in `scrub` come only from reads of array elements or object properties (a `Throws` slot). Proxies whose `Object.keys` throws are not modelled.
- `e && e.message` is reduced to the message string the throwing read carries.
- For symbols and bigints, the `String(v)` text is the text the `Other` value carries.
- `toLowerCase` covers ASCII letters only. Unicode case mappings are not modelled.
- RootPrefix: tests the root path for the suffix `/music`, i.e. `path.sep` is the POSIX separator `/`; Windows separators are not modelled.
- `path.extname` is modelled for directory entry names, which contain no `/`.
- In the frame update, the steering sum (ring keeping, pursuit, separation, angular lanes) is an input vector. It is floating-point vector maths with no discrete rule.
- `Math.sqrt`, `Math.sin`, `Math.cos` and `Math.atan2` are constrained only by the laws listed above. `Math.PI` is the constant `Pi`.
- Floating-point rounding is not modelled; numbers are exact reals.
- `performance.now` is assumed monotonic, so `Animate` requires a non-negative elapsed time.
- The filename label, the talking heads, audio, sky colours, rain, camera and mouse-look handling are out of scope, as is all Three.js scene construction and rendering.
- The client-side error forwarding and its `fetch` calls are out of scope. public/app.js is not part of this model.
- Sparse arrays and getters are not modelled. An array has no holes, which `map` would keep and `JSON.stringify` would print as `null`. Each element or property is read once, whereas a getter runs on every read. Bodies parsed by `express.json` have neither.
- `Scrubber.WalkItems` models the array `map` as recursion over the elements, in order.
- The resolve pass is not claimed to remove every overlap, because later pairs can undo earlier corrections.
- Toggling crazy mode twice is not claimed to restore cooldowns, because fresh random values are drawn.
- Sprites.ResolveRow: states only that the number of sprites is kept; Sprites.ResolveRowConserves states its other properties.
- Sprites.ResolveFrom: states only that the number of sprites is kept; Sprites.ResolveConserves states its other properties.
- SceneModel.ForceAll: states only that the number of sprites is kept; SceneModel.ForceAllSpec states its other properties.
- SceneModel.ReleaseAll: states only that the number of sprites is kept; SceneModel.ReleaseAllSpec states its other properties.
- LogBroadcast.LogHub.BroadcastLog: requires a closed heap, in which every reference resolves; a JavaScript object graph always is one.
- LogBroadcast.LogHub.PostLog: requires a closed heap, in which every reference resolves; a JavaScript object graph always is one.
