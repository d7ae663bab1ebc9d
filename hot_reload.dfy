/**
 * Hot reloading of the game module (game/src/engine/sdl_hot_reload_dll.cpp,
 * record layout in game/src/engine/sdl_hot_reload_dll.hpp).
 *
 * SDL's file system and shared-object loader are modelled by `Platform`:
 * files are a map from path to bytes, and an open shared object is the
 * image it was opened from plus its symbol table. What the loader makes of
 * an image (`objectFormat`) is a parameter of the platform.
 *
 * `sdl_game_code` is the record `GameCode` (as a value, what load returns)
 * and the class `SdlGameCode` (the global record that unload overwrites in
 * place). The header calls the flag `valid` and the .cpp writes `is_valid`;
 * here it is one field, `isValid`.
 */
module HotReload {
  import opened Wrappers

  type Path = string
  type Bytes = seq<bv8>
  /** An OS handle of an open shared object (`SDL_SharedObject*`, never NULL). */
  type Handle = nat
  /** The exported functions of a shared object, by name. */
  type SymbolTable = set<string>

  const GAME_INIT := "game_init"
  const GAME_FIXED_UPDATE := "game_fixed_update"
  const GAME_UPDATE := "game_update"
  const GAME_UPDATE_UI := "game_update_ui"
  const GAME_REFRESH := "game_refresh"

  /** A function pointer in the record. */
  datatype FnPtr =
    | Null                                 // NULL, as `SDL_LoadFunction` returns for a missing symbol
    | Stub                                 // one of the five no-op `game_*_stub` functions
    | Symbol(lib: Handle, name: string)    // `name` resolved in the shared object `lib`

  /** A shared object opened by `SDL_LoadObject`. */
  datatype LoadedObject = LoadedObject(path: Path, image: Bytes, symbols: SymbolTable)

  /** The value of an `sdl_game_code` record. */
  datatype GameCode = GameCode(
    dll: Option<Handle>,
    gameInit: FnPtr,
    gameFixedUpdate: FnPtr,
    gameUpdate: FnPtr,
    gameUpdateUi: FnPtr,
    gameRefresh: FnPtr,
    isValid: bool)

  /** `sdl_game_code result = { 0 }`, and the record before the first load. */
  const ZEROED := GameCode(None, Null, Null, Null, Null, Null, false)

  /** Why `sdl_load_game_code` throws. */
  datatype LoadError = CopyFailed | OpenFailed | MissingSymbol(name: string)

  /** The record unload leaves behind: invalid, no handle, all five entry points stubs. */
  function Unloaded(v: GameCode): (u: GameCode)
    ensures !u.isValid && u.dll.None?
    ensures u.gameInit == u.gameFixedUpdate == u.gameUpdate == u.gameUpdateUi == u.gameRefresh == Stub
  {
    GameCode(None, Stub, Stub, Stub, Stub, Stub, false)
  }

  /** The handle unload releases: the record's handle when it is not NULL. */
  function Released(v: GameCode): set<Handle>
  {
    if v.dll.Some? then {v.dll.value} else {}
  }

  /** Unloading an unloaded record changes nothing and releases nothing. */
  lemma UnloadIdempotent(v: GameCode)
    ensures Unloaded(Unloaded(v)) == Unloaded(v)
    ensures Released(Unloaded(v)) == {}
  {
  }

  /**
   * What a valid record guarantees under the load as written: it holds an
   * open shared object, and the four entry points the load checks are
   * resolved, under their own names, in that object. `game_update` is
   * resolved there too, or NULL when the object does not export it.
   */
  ghost predicate Callable(v: GameCode, objects: map<Handle, LoadedObject>)
  {
    v.isValid ==>
      && v.dll.Some? && v.dll.value in objects
      && ResolvedIn(v.gameInit, v.dll.value, GAME_INIT)
      && ResolvedIn(v.gameFixedUpdate, v.dll.value, GAME_FIXED_UPDATE)
      && (v.gameUpdate == Null || ResolvedIn(v.gameUpdate, v.dll.value, GAME_UPDATE))
      && ResolvedIn(v.gameUpdateUi, v.dll.value, GAME_UPDATE_UI)
      && ResolvedIn(v.gameRefresh, v.dll.value, GAME_REFRESH)
  }

  predicate ResolvedIn(f: FnPtr, h: Handle, name: string)
  {
    f == Symbol(h, name)
  }

  /** All five entry points present in a symbol table. */
  predicate ExportsAll(syms: SymbolTable)
  {
    GAME_INIT in syms && GAME_FIXED_UPDATE in syms && GAME_UPDATE in syms
    && GAME_UPDATE_UI in syms && GAME_REFRESH in syms
  }

  /** The four entry points the code as written checks (everything but `game_update`). */
  predicate ExportsChecked(syms: SymbolTable)
  {
    GAME_INIT in syms && GAME_FIXED_UPDATE in syms && GAME_UPDATE_UI in syms && GAME_REFRESH in syms
  }

  /** The record the load as written returns for an object `h` exporting `syms`. */
  function AsWrittenRecord(h: Handle, syms: SymbolTable): GameCode
  {
    GameCode(Some(h),
      Symbol(h, GAME_INIT), Symbol(h, GAME_FIXED_UPDATE),
      if GAME_UPDATE in syms then Symbol(h, GAME_UPDATE) else Null,
      Symbol(h, GAME_UPDATE_UI), Symbol(h, GAME_REFRESH), true)
  }

  /** The load as written accepts a staged image: the loader opens it and it exports the four checked names. */
  predicate AcceptedAsWritten(objectFormat: Bytes -> Option<SymbolTable>, image: Bytes)
  {
    objectFormat(image).Some? && ExportsChecked(objectFormat(image).value)
  }

  /**
   * What `copy_file(src, dst)` leaves in `dst`: dst is truncated before src
   * is read, so this is src's bytes after that truncation, which is nothing
   * when src is missing or is dst itself.
   */
  function StagedImage(files: map<Path, Bytes>, src: Path, dst: Path): Bytes
  {
    var truncated := files[dst := []];
    if src in truncated then truncated[src] else []
  }

  /** SDL's files and shared objects. */
  class Platform {
    var files: map<Path, Bytes>
    /** The shared objects currently open. */
    var objects: map<Handle, LoadedObject>
    /** The handle the next successful `SDL_LoadObject` returns. */
    var nextHandle: Handle
    /** The symbol table of a loadable image; None when the loader rejects it. */
    const objectFormat: Bytes -> Option<SymbolTable>

    ghost predicate Valid()
      reads this
    {
      forall h | h in objects :: h < nextHandle
    }

    constructor (files: map<Path, Bytes>, objectFormat: Bytes -> Option<SymbolTable>)
      ensures Valid() && this.files == files && objects == map[] && nextHandle == 0 && this.objectFormat == objectFormat
    {
      this.files := files;
      this.objects := map[];
      this.nextHandle := 0;
      this.objectFormat := objectFormat;
    }

    /**
     * `copy_file(src, dst)`: opens src for reading and dst for writing
     * (truncating it), reads src's size into a buffer and writes the buffer
     * to dst. Nothing is checked, so it always returns true; a missing src
     * leaves dst empty, and so does a copy of a file onto itself.
     */
    method CopyFile(src: Path, dst: Path) returns (ok: bool)
      requires Valid()
      modifies this`files
      ensures Valid()
      ensures ok
      ensures files == old(files)[dst := StagedImage(old(files), src, dst)]
    {
      files := files[dst := []];
      var buffer: Bytes := if src in files then files[src] else [];
      files := files[dst := buffer];
      ok := true;
    }

    /** `SDL_LoadObject(path)`: a fresh handle, or None (NULL) when path is missing or not loadable. */
    method LoadObject(path: Path) returns (h: Option<Handle>)
      requires Valid()
      modifies this`objects, this`nextHandle
      ensures Valid()
      ensures path in files && objectFormat(files[path]).Some? ==>
        && h == Some(old(nextHandle))
        && objects == old(objects)[old(nextHandle) := LoadedObject(path, files[path], objectFormat(files[path]).value)]
        && nextHandle == old(nextHandle) + 1
      ensures !(path in files && objectFormat(files[path]).Some?) ==>
        h == None && objects == old(objects) && nextHandle == old(nextHandle)
    {
      if path in files && objectFormat(files[path]).Some? {
        h := Some(nextHandle);
        objects := objects[nextHandle := LoadedObject(path, files[path], objectFormat(files[path]).value)];
        nextHandle := nextHandle + 1;
      } else {
        h := None;
      }
    }

    /** `SDL_LoadFunction(h, name)`: the symbol, or NULL when the object does not export it. */
    function LoadFunction(h: Handle, name: string): (f: FnPtr)
      reads this
      requires h in objects
      ensures f != Stub
      ensures f.Symbol? <==> name in objects[h].symbols
      ensures f.Symbol? ==> f == Symbol(h, name)
    {
      if name in objects[h].symbols then Symbol(h, name) else Null
    }

    /** `SDL_UnloadObject(h)`. */
    method UnloadObject(h: Handle)
      requires Valid()
      modifies this`objects
      ensures Valid()
      ensures objects == old(objects) - {h}
    {
      objects := objects - {h};
    }
  }

  /**
   * `sdl_load_game_code(src, dst)` exactly as written: the check after
   * resolving `game_update` (line 74) tests `init` again, so a missing
   * `game_update` is not detected and the record comes back valid with a
   * NULL update pointer. Throwing is `Failure`; the opened object is not
   * released on a throw.
   */
  method LoadGameCodeAsWritten(p: Platform, src: Path, dst: Path) returns (r: Result<GameCode, LoadError>)
    requires p.Valid()
    modifies p
    ensures p.Valid()
    ensures p.files == old(p.files)[dst := StagedImage(old(p.files), src, dst)]
    ensures var image := StagedImage(old(p.files), src, dst);
      match p.objectFormat(image)
      case None =>
        r == Failure(OpenFailed) && p.objects == old(p.objects)
      case Some(syms) =>
        var h := old(p.nextHandle);
        && p.objects == old(p.objects)[h := LoadedObject(dst, image, syms)]
        && (r.Success? <==> ExportsChecked(syms))
        && (r.Success? ==> r.value == AsWrittenRecord(h, syms))
        && (r.Failure? ==> r.error.MissingSymbol? && r.error.name != GAME_UPDATE && r.error.name !in syms)
    ensures r.Success? <==> AcceptedAsWritten(p.objectFormat, StagedImage(old(p.files), src, dst))
    ensures r.Success? ==> Callable(r.value, p.objects)
  {
    var result := ZEROED;

    var copyResult := p.CopyFile(src, dst);
    // copy_file always returns true: the "Failed to copy dll." branch is unreachable.
    assert copyResult;

    var dll := p.LoadObject(dst);
    if dll.None? {
      return Failure(OpenFailed);
    }
    var h := dll.value;
    result := result.(dll := dll);

    var init := p.LoadFunction(h, GAME_INIT);
    if init == Null {
      return Failure(MissingSymbol(GAME_INIT));
    }
    result := result.(gameInit := init);

    var fixedUpdate := p.LoadFunction(h, GAME_FIXED_UPDATE);
    if fixedUpdate == Null {
      return Failure(MissingSymbol(GAME_FIXED_UPDATE));
    }
    result := result.(gameFixedUpdate := fixedUpdate);

    var update := p.LoadFunction(h, GAME_UPDATE);
    if init == Null {
      return Failure(MissingSymbol(GAME_UPDATE));
    }
    result := result.(gameUpdate := update);

    var updateUi := p.LoadFunction(h, GAME_UPDATE_UI);
    if updateUi == Null {
      return Failure(MissingSymbol(GAME_UPDATE_UI));
    }
    result := result.(gameUpdateUi := updateUi);

    var refresh := p.LoadFunction(h, GAME_REFRESH);
    if refresh == Null {
      return Failure(MissingSymbol(GAME_REFRESH));
    }
    result := result.(gameRefresh := refresh);

    result := result.(isValid := true);
    return Success(result);
  }

  /**
   * A staged library that exports everything but `game_update` is accepted
   * by the load as written: the record is valid and its update pointer is
   * NULL, which the game thread then calls.
   */
  method MissingUpdateAccepted() returns (r: Result<GameCode, LoadError>)
    ensures r.Success? && r.value.isValid && r.value.gameUpdate == Null
  {
    var syms := {GAME_INIT, GAME_FIXED_UPDATE, GAME_UPDATE_UI, GAME_REFRESH};
    var image: Bytes := [0x7f];
    var p := new Platform(map["GameDLL.dll" := image], (b: Bytes) => Some(syms));
    r := LoadGameCodeAsWritten(p, "GameDLL.dll", "GameDLL-locked.dll");
  }

  /**
   * `sdl_load_game_code(src, dst)` with line 74 testing `update`, as the
   * message it throws says it should: copies src to dst, opens dst and
   * resolves the five entry points; any failure throws (`Failure`). On
   * success the record is valid, its handle is the object just opened from
   * the staged copy, and every entry point is resolved in it.
   */
  method LoadGameCode(p: Platform, src: Path, dst: Path) returns (r: Result<GameCode, LoadError>)
    requires p.Valid()
    modifies p
    ensures p.Valid()
    ensures p.files == old(p.files)[dst := StagedImage(old(p.files), src, dst)]
    ensures var image := StagedImage(old(p.files), src, dst);
      match p.objectFormat(image)
      case None =>
        r == Failure(OpenFailed) && p.objects == old(p.objects)
      case Some(syms) =>
        var h := old(p.nextHandle);
        && p.objects == old(p.objects)[h := LoadedObject(dst, image, syms)]
        && (r.Success? <==> ExportsAll(syms))
        && (r.Success? ==> r.value == GameCode(Some(h),
              Symbol(h, GAME_INIT), Symbol(h, GAME_FIXED_UPDATE), Symbol(h, GAME_UPDATE),
              Symbol(h, GAME_UPDATE_UI), Symbol(h, GAME_REFRESH), true))
        && (r.Failure? ==> r.error.MissingSymbol? && r.error.name !in syms)
    ensures r.Success? ==> Callable(r.value, p.objects)
  {
    var result := ZEROED;

    var copyResult := p.CopyFile(src, dst);
    assert copyResult;

    var dll := p.LoadObject(dst);
    if dll.None? {
      return Failure(OpenFailed);
    }
    var h := dll.value;
    result := result.(dll := dll);

    var init := p.LoadFunction(h, GAME_INIT);
    if init == Null {
      return Failure(MissingSymbol(GAME_INIT));
    }
    result := result.(gameInit := init);

    var fixedUpdate := p.LoadFunction(h, GAME_FIXED_UPDATE);
    if fixedUpdate == Null {
      return Failure(MissingSymbol(GAME_FIXED_UPDATE));
    }
    result := result.(gameFixedUpdate := fixedUpdate);

    var update := p.LoadFunction(h, GAME_UPDATE);
    if update == Null {
      return Failure(MissingSymbol(GAME_UPDATE));
    }
    result := result.(gameUpdate := update);

    var updateUi := p.LoadFunction(h, GAME_UPDATE_UI);
    if updateUi == Null {
      return Failure(MissingSymbol(GAME_UPDATE_UI));
    }
    result := result.(gameUpdateUi := updateUi);

    var refresh := p.LoadFunction(h, GAME_REFRESH);
    if refresh == Null {
      return Failure(MissingSymbol(GAME_REFRESH));
    }
    result := result.(gameRefresh := refresh);

    result := result.(isValid := true);
    return Success(result);
  }

  /** One step of `sdl_unload_game_code`, in the order it happens. */
  datatype UnloadStep = ClearValid | ReleaseObject(h: Handle) | InstallStubs

  /** The global `sdl_game_code` record, written in place by unload. */
  class SdlGameCode {
    var gameCodeDll: Option<Handle>
    var gameInit: FnPtr
    var gameFixedUpdate: FnPtr
    var gameUpdate: FnPtr
    var gameUpdateUi: FnPtr
    var gameRefresh: FnPtr
    var isValid: bool

    function Value(): GameCode
      reads this
    {
      GameCode(gameCodeDll, gameInit, gameFixedUpdate, gameUpdate, gameUpdateUi, gameRefresh, isValid)
    }

    /** A zero-initialised global record. */
    constructor ()
      ensures Value() == ZEROED
    {
      gameCodeDll, isValid := None, false;
      gameInit, gameFixedUpdate, gameUpdate, gameUpdateUi, gameRefresh := Null, Null, Null, Null, Null;
    }

    /** `game_code = <record>`: struct assignment. */
    method Assign(v: GameCode)
      modifies this
      ensures Value() == v
    {
      gameCodeDll, isValid := v.dll, v.isValid;
      gameInit, gameFixedUpdate, gameUpdate := v.gameInit, v.gameFixedUpdate, v.gameUpdate;
      gameUpdateUi, gameRefresh := v.gameUpdateUi, v.gameRefresh;
    }

    /**
     * `sdl_unload_game_code(&game_code)`: clears the flag, releases the
     * shared object only when the handle is not NULL (and sets it NULL), then
     * installs the five stubs. Returns the steps in the order taken.
     */
    method Unload(p: Platform) returns (steps: seq<UnloadStep>)
      requires p.Valid()
      modifies this, p`objects
      ensures p.Valid()
      ensures Value() == Unloaded(old(Value()))
      ensures p.objects == old(p.objects) - Released(old(Value()))
      ensures steps == [ClearValid]
                       + (if old(gameCodeDll).Some? then [ReleaseObject(old(gameCodeDll).value)] else [])
                       + [InstallStubs]
    {
      isValid := false;
      steps := [ClearValid];

      if gameCodeDll.Some? {
        p.UnloadObject(gameCodeDll.value);
        steps := steps + [ReleaseObject(gameCodeDll.value)];
        gameCodeDll := None;
      }

      gameInit := Stub;
      gameFixedUpdate := Stub;
      gameUpdate := Stub;
      gameUpdateUi := Stub;
      gameRefresh := Stub;
      steps := steps + [InstallStubs];
    }
  }
}
