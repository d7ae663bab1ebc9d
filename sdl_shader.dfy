/**
 * Shader loading (engine/src/sdl_shader.cpp): the stage is taken from the
 * file name, the format from the device's supported formats with SPIR-V
 * preferred over MSL over DXIL, and the format fixes the directory, the
 * extension and the entry point. The path is formatted into a 256-byte
 * `char` buffer; C strings are their UTF-8 bytes, so every length here is
 * a byte count. `SDL_LoadFile` is modelled by a map from path to contents and
 * `SDL_CreateGPUShader` by a given outcome; a created shader is identified
 * by the create-info it was made from.
 */
module SdlShader {
  import opened Wrappers

  /** A C `char`, as the byte it holds. */
  newtype Byte = x: int | 0 <= x < 256
  type Bytes = seq<Byte>
  /** A NUL-terminated C string, as its bytes without the terminator. */
  type CString = s: Bytes | 0 !in s

  /** Text of ASCII characters other than NUL, as the loader's literals are. */
  predicate IsAsciiText(s: string)
  {
    forall i | 0 <= i < |s| :: 0 < s[i] as int < 128
  }

  /** The bytes of an ASCII literal: one byte per character, holding its code. */
  function Ascii(s: string): (r: Bytes)
    requires IsAsciiText(s)
    ensures |r| == |s| && 0 !in r
    ensures forall i | 0 <= i < |s| :: r[i] as int == s[i] as int
  {
    var r := seq(|s|, i requires 0 <= i < |s| => s[i] as int as Byte);
    assert forall i | 0 <= i < |r| :: r[i] as int == s[i] as int > 0;
    r
  }

  /** The byte `'/'`. */
  const SLASH: Byte := 0x2F

  /** `SDL_GPUShaderFormat` bits, as SDL3 defines them (1 << 1, 1 << 3, 1 << 4). */
  type ShaderFormats = bv32
  const FORMAT_SPIRV: ShaderFormats := 0x02
  const FORMAT_DXIL: ShaderFormats := 0x08
  const FORMAT_MSL: ShaderFormats := 0x10

  /** `sizeof(full_path)`, in bytes. */
  const PATH_BUFFER_SIZE: nat := 256
  /** The asset directory under the base path. */
  const ASSETS: Bytes := Ascii("assets/shaders/compiled")
  const VERT: Bytes := Ascii(".vert")
  const FRAG: Bytes := Ascii(".frag")

  datatype Stage = Vertex | Fragment
  datatype Backend = Spirv | Msl | Dxil
  datatype ShaderError = UnrecognizedStage

  /** The fields of `SDL_GPUShaderCreateInfo` the loader sets. */
  datatype ShaderCreateInfo = ShaderCreateInfo(
    code: Bytes, entrypoint: string, format: Backend, stage: Stage,
    numSamplers: nat, numStorageTextures: nat, numStorageBuffers: nat, numUniformBuffers: nat)

  /** `SDL_strstr(s, sub) != NULL`. */
  predicate Contains(s: Bytes, sub: Bytes)
    decreases |s|
  {
    |sub| <= |s| && (s[..|sub|] == sub || Contains(s[1..], sub))
  }

  /** An occurrence at any index is found. */
  lemma {:induction false} ContainsAt(s: Bytes, sub: Bytes, i: nat)
    requires i + |sub| <= |s| && s[i..i + |sub|] == sub
    ensures Contains(s, sub)
    decreases i
  {
    if i > 0 {
      assert s[1..][i - 1..i - 1 + |sub|] == s[i..i + |sub|];
      ContainsAt(s[1..], sub, i - 1);
    }
  }

  /** The stage test: ".vert" first, then ".frag", else none. */
  function ChooseStage(shaderFilename: Bytes): (r: Option<Stage>)
    ensures r == Some(Vertex) <==> Contains(shaderFilename, VERT)
    ensures r == Some(Fragment) <==> !Contains(shaderFilename, VERT) && Contains(shaderFilename, FRAG)
    ensures r == None <==> !Contains(shaderFilename, VERT) && !Contains(shaderFilename, FRAG)
  {
    if Contains(shaderFilename, VERT) then Some(Vertex)
    else if Contains(shaderFilename, FRAG) then Some(Fragment)
    else None
  }

  /** The engine's stage choice: an unrecognised name throws. */
  function StageOrThrow(shaderFilename: Bytes): (r: Result<Stage, ShaderError>)
    ensures r.Failure? <==> ChooseStage(shaderFilename).None?
    ensures r.Success? ==> Some(r.value) == ChooseStage(shaderFilename)
  {
    match ChooseStage(shaderFilename)
    case Some(stage) => Success(stage)
    case None => Failure(UnrecognizedStage)
  }

  function FormatBit(b: Backend): ShaderFormats
  {
    match b
    case Spirv => FORMAT_SPIRV
    case Msl => FORMAT_MSL
    case Dxil => FORMAT_DXIL
  }

  /** `backendFormats & SDL_GPU_SHADERFORMAT_<b>` is set. */
  predicate Supports(backendFormats: ShaderFormats, b: Backend)
  {
    backendFormats & FormatBit(b) != 0
  }

  /**
   * The format branch: the first of SPIR-V, MSL, DXIL the device supports,
   * none when it supports none of the three.
   */
  function ChooseFormat(backendFormats: ShaderFormats): (r: Option<Backend>)
    ensures r == Some(Spirv) <==> Supports(backendFormats, Spirv)
    ensures r == Some(Msl) <==> !Supports(backendFormats, Spirv) && Supports(backendFormats, Msl)
    ensures r == Some(Dxil) <==>
      !Supports(backendFormats, Spirv) && !Supports(backendFormats, Msl) && Supports(backendFormats, Dxil)
    ensures r == None <==>
      !Supports(backendFormats, Spirv) && !Supports(backendFormats, Msl) && !Supports(backendFormats, Dxil)
  {
    var spirv, msl, dxil := Supports(backendFormats, Spirv), Supports(backendFormats, Msl), Supports(backendFormats, Dxil);
    if spirv then Some(Spirv)
    else if msl then Some(Msl)
    else if dxil then Some(Dxil)
    else None
  }

  /** Metal shaders are compiled with entry point `main0`, the others with `main`. */
  function EntryPoint(b: Backend): (r: string)
    ensures r == "main0" <==> b == Msl
    ensures r == "main" <==> b != Msl
  {
    if b == Msl then "main0" else "main"
  }

  function Directory(b: Backend): CString
  {
    match b
    case Spirv => Ascii("/SPIRV/")
    case Msl => Ascii("/MSL/")
    case Dxil => Ascii("/DXIL/")
  }

  function Extension(b: Backend): CString
  {
    match b
    case Spirv => Ascii(".spv")
    case Msl => Ascii(".msl")
    case Dxil => Ascii(".dxil")
  }

  /** The bytes `"%s%s/<FORMAT>/%s.<ext>"` formats to, before truncation. */
  function PathText(basePath: Bytes, assets: Bytes, shaderFilename: Bytes, b: Backend): Bytes
  {
    basePath + assets + Directory(b) + shaderFilename + Extension(b)
  }

  function Min(a: nat, b: nat): nat
  {
    if a <= b then a else b
  }

  /** The bytes of a buffer before its first NUL. */
  function CStringOf(buf: Bytes): (r: CString)
    ensures |r| <= |buf| && buf[..|r|] == r
    ensures |r| < |buf| ==> buf[|r|] == 0
  {
    if |buf| == 0 || buf[0] == 0 then []
    else [buf[0]] + CStringOf(buf[1..])
  }

  /** A buffer holding `t` and then a NUL reads back as `t`. */
  lemma {:induction false} CStringOfTerminated(buf: Bytes, t: Bytes)
    requires 0 !in t && |t| < |buf| && buf[..|t|] == t && buf[|t|] == 0
    ensures CStringOf(buf) == t
  {
    if |t| > 0 {
      assert buf[0] == t[0];
      assert buf[1..][..|t| - 1] == t[1..];
      CStringOfTerminated(buf[1..], t[1..]);
    }
  }

  /**
   * `SDL_snprintf(buf, buf.Length, "%s", text)`: the first `buf.Length - 1`
   * bytes at most, then a NUL; the rest of the buffer is untouched; the
   * result is the length the whole text would have had. The cut is by
   * bytes, so it may fall inside a multi-byte UTF-8 character.
   */
  method Snprintf(buf: array<Byte>, text: Bytes) returns (n: nat)
    requires buf.Length > 0
    modifies buf
    ensures n == |text|
    ensures var k := Min(|text|, buf.Length - 1);
      buf[..k] == text[..k] && buf[k] == 0 && buf[k + 1..] == old(buf[k + 1..])
    ensures 0 !in text ==> CStringOf(buf[..]) == text[..Min(|text|, buf.Length - 1)]
  {
    var k := Min(|text|, buf.Length - 1);
    for i := 0 to k
      invariant forall j | 0 <= j < i :: buf[j] == text[j]
      invariant forall j | i <= j < buf.Length :: buf[j] == old(buf[j])
    {
      buf[i] := text[i];
    }
    buf[k] := 0;
    assert buf[..k] == text[..k];
    assert buf[k + 1..] == old(buf[k + 1..]);
    n := |text|;
    if 0 !in text {
      assert 0 !in text[..k] by {
        forall c | c in text[..k] ensures c in text {
        }
      }
      CStringOfTerminated(buf[..], text[..k]);
    }
  }

  /**
   * The path `SDL_LoadFile` is given: the formatted bytes cut to the 255
   * the buffer holds before its terminator.
   */
  function FullPath(basePath: CString, assets: CString, shaderFilename: CString, b: Backend): (r: CString)
    ensures |r| <= PATH_BUFFER_SIZE - 1
    ensures r <= PathText(basePath, assets, shaderFilename, b)
  {
    var text := PathText(basePath, assets, shaderFilename, b);
    text[..Min(|text|, PATH_BUFFER_SIZE - 1)]
  }

  /** Formats a shader path into a fresh `char[256]` and reads it back. */
  method FormatPath(basePath: CString, assets: CString, shaderFilename: CString, b: Backend) returns (path: CString)
    ensures path == FullPath(basePath, assets, shaderFilename, b)
  {
    var fullPath := new Byte[PATH_BUFFER_SIZE];
    var text := PathText(basePath, assets, shaderFilename, b);
    assert 0 !in text by {
      assert 0 !in Directory(b) && 0 !in Extension(b);
    }
    var _ := Snprintf(fullPath, text);
    path := CStringOf(fullPath[..]);
  }

  /**
   * The tail of `LoadShader`: load the file, create the shader, free the
   * code. A missing file gives no shader; a failed create gives none too,
   * and in every case the loaded code is freed (`codeLive` ends false).
   */
  method LoadAndCreate(path: Bytes, files: map<Bytes, Bytes>, createSucceeds: bool,
                       entrypoint: string, format: Backend, stage: Stage,
                       samplerCount: nat, uniformBufferCount: nat, storageBufferCount: nat, storageTextureCount: nat)
    returns (shader: Option<ShaderCreateInfo>, codeLive: bool)
    ensures path !in files ==> shader == None
    ensures path in files && !createSucceeds ==> shader == None
    ensures path in files && createSucceeds ==>
      shader == Some(ShaderCreateInfo(files[path], entrypoint, format, stage,
                                      samplerCount, storageTextureCount, storageBufferCount, uniformBufferCount))
    ensures !codeLive
  {
    codeLive := false;
    if path !in files {
      return None, codeLive;
    }
    var code := files[path];
    codeLive := true;
    var info := ShaderCreateInfo(code, entrypoint, format, stage,
                                 samplerCount, storageTextureCount, storageBufferCount, uniformBufferCount);
    if !createSucceeds {
      codeLive := false;
      return None, codeLive;
    }
    codeLive := false;
    shader := Some(info);
  }

  /**
   * `LoadShader`: an unrecognised stage throws; no supported format, a
   * missing file or a failed create gives NULL; otherwise the shader is
   * made from the file at the chosen format's path with that format's entry
   * point, and the code is never leaked.
   */
  method LoadShader(basePath: CString, backendFormats: ShaderFormats, files: map<Bytes, Bytes>, createSucceeds: bool,
                    shaderFilename: CString, samplerCount: nat, uniformBufferCount: nat,
                    storageBufferCount: nat, storageTextureCount: nat)
    returns (r: Result<Option<ShaderCreateInfo>, ShaderError>, codeLive: bool)
    ensures ChooseStage(shaderFilename).None? ==> r == Failure(UnrecognizedStage)
    ensures ChooseStage(shaderFilename).Some? && ChooseFormat(backendFormats).None? ==> r == Success(None)
    ensures ChooseStage(shaderFilename).Some? && ChooseFormat(backendFormats).Some? ==>
      var b := ChooseFormat(backendFormats).value;
      var path := FullPath(basePath, ASSETS, shaderFilename, b);
      r == Success(if path in files && createSucceeds
                   then Some(ShaderCreateInfo(files[path], EntryPoint(b), b, ChooseStage(shaderFilename).value,
                                              samplerCount, storageTextureCount, storageBufferCount, uniformBufferCount))
                   else None)
    ensures !codeLive
  {
    codeLive := false;
    var stage := StageOrThrow(shaderFilename);
    if stage.Failure? {
      return Failure(UnrecognizedStage), codeLive;
    }
    var format := ChooseFormat(backendFormats);
    if format.None? {
      return Success(None), codeLive;
    }
    var path := FormatPath(basePath, ASSETS, shaderFilename, format.value);
    var shader;
    shader, codeLive := LoadAndCreate(path, files, createSucceeds, EntryPoint(format.value), format.value, stage.value,
                                      samplerCount, uniformBufferCount, storageBufferCount, storageTextureCount);
    r := Success(shader);
  }

  /** The chosen format is one the device supports, and a device's own bits decide: SPIR-V alone gives SPIR-V. */
  lemma ChosenFormatSupported(backendFormats: ShaderFormats)
    ensures ChooseFormat(backendFormats).Some? ==> Supports(backendFormats, ChooseFormat(backendFormats).value)
    ensures ChooseFormat(FORMAT_SPIRV | FORMAT_MSL | FORMAT_DXIL) == Some(Spirv)
    ensures ChooseFormat(FORMAT_MSL | FORMAT_DXIL) == Some(Msl)
    ensures ChooseFormat(FORMAT_DXIL) == Some(Dxil)
    ensures ChooseFormat(0) == None
  {
  }

  /**
   * The file looked up is the one named exactly when the formatted path,
   * counted in bytes, fits the buffer with its terminator; a longer one is
   * cut to its first 255 bytes.
   */
  lemma ShortPathKeptWhole(basePath: CString, assets: CString, shaderFilename: CString, b: Backend)
    ensures var text := PathText(basePath, assets, shaderFilename, b);
      FullPath(basePath, assets, shaderFilename, b) == text <==> |text| < PATH_BUFFER_SIZE
    ensures var text := PathText(basePath, assets, shaderFilename, b);
      |text| >= PATH_BUFFER_SIZE ==> FullPath(basePath, assets, shaderFilename, b) == text[..PATH_BUFFER_SIZE - 1]
  {
  }
}
