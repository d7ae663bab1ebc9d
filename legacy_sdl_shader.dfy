/**
 * The older shader loader of the game module (game/src/sdl_shader.cpp):
 * the same stage, format and entry-point choice, but an unrecognised stage
 * gives NULL instead of throwing, and the asset prefix ends in a slash, so
 * every path has a doubled slash before the format directory.
 */
module LegacySdlShader {
  import opened Wrappers
  import opened SdlShader

  /** The asset directory under the base path, with its trailing slash. */
  const LEGACY_ASSETS: Bytes := Ascii("assets/shaders_compiled/")

  /**
   * `LoadShader`: no stage, no supported format, a missing file or a failed
   * create all give NULL; otherwise the shader is made from the file at the
   * chosen format's path with that format's entry point. The code is never
   * leaked.
   */
  method LoadShader(basePath: CString, backendFormats: ShaderFormats, files: map<Bytes, Bytes>, createSucceeds: bool,
                    shaderFilename: CString, samplerCount: nat, uniformBufferCount: nat,
                    storageBufferCount: nat, storageTextureCount: nat)
    returns (shader: Option<ShaderCreateInfo>, codeLive: bool)
    ensures ChooseStage(shaderFilename).None? || ChooseFormat(backendFormats).None? ==> shader == None
    ensures ChooseStage(shaderFilename).Some? && ChooseFormat(backendFormats).Some? ==>
      var b := ChooseFormat(backendFormats).value;
      var path := FullPath(basePath, LEGACY_ASSETS, shaderFilename, b);
      shader == (if path in files && createSucceeds
                 then Some(ShaderCreateInfo(files[path], EntryPoint(b), b, ChooseStage(shaderFilename).value,
                                            samplerCount, storageTextureCount, storageBufferCount, uniformBufferCount))
                 else None)
    ensures !codeLive
  {
    codeLive := false;
    var stage := ChooseStage(shaderFilename);
    if stage.None? {
      return None, codeLive;
    }
    var format := ChooseFormat(backendFormats);
    if format.None? {
      return None, codeLive;
    }
    var path := FormatPath(basePath, LEGACY_ASSETS, shaderFilename, format.value);
    shader, codeLive := LoadAndCreate(path, files, createSucceeds, EntryPoint(format.value), format.value, stage.value,
                                      samplerCount, uniformBufferCount, storageBufferCount, storageTextureCount);
  }

  /**
   * The formatted text has "//" right after the asset prefix, for every
   * format, and so does the path looked up whenever the cut at 255 bytes
   * falls after those two bytes.
   */
  lemma DoubledSlash(basePath: CString, shaderFilename: CString, b: Backend)
    ensures var text := PathText(basePath, LEGACY_ASSETS, shaderFilename, b);
      var i := |basePath| + |LEGACY_ASSETS| - 1;
      i + 2 <= |text| && text[i..i + 2] == [SLASH, SLASH]
    ensures Contains(PathText(basePath, LEGACY_ASSETS, shaderFilename, b), [SLASH, SLASH])
    ensures var path := FullPath(basePath, LEGACY_ASSETS, shaderFilename, b);
      var i := |basePath| + |LEGACY_ASSETS| - 1;
      i + 2 < PATH_BUFFER_SIZE ==> i + 2 <= |path| && path[i..i + 2] == [SLASH, SLASH] && Contains(path, [SLASH, SLASH])
  {
    var text := PathText(basePath, LEGACY_ASSETS, shaderFilename, b);
    var i := |basePath| + |LEGACY_ASSETS| - 1;
    assert text == basePath + LEGACY_ASSETS + Directory(b) + shaderFilename + Extension(b);
    assert text[i] == LEGACY_ASSETS[|LEGACY_ASSETS| - 1] == SLASH;
    assert text[i + 1] == Directory(b)[0] == SLASH;
    assert text[i..i + 2] == [text[i], text[i + 1]];
    ContainsAt(text, [SLASH, SLASH], i);
    if i + 2 < PATH_BUFFER_SIZE {
      PrefixKeepsSlice(text, FullPath(basePath, LEGACY_ASSETS, shaderFilename, b), i, [SLASH, SLASH]);
    }
  }

  /** A prefix long enough to reach past an occurrence keeps that occurrence. */
  lemma PrefixKeepsSlice(text: Bytes, path: Bytes, i: nat, sub: Bytes)
    requires path <= text && i + |sub| <= |path| && text[i..i + |sub|] == sub
    ensures path[i..i + |sub|] == sub && Contains(path, sub)
  {
    assert path[i..i + |sub|] == text[i..i + |sub|];
    ContainsAt(path, sub, i);
  }

  /** The engine's prefix has no trailing slash, so its paths have a single one there. */
  lemma EngineSingleSlash(basePath: CString, shaderFilename: CString, b: Backend)
    ensures var text := PathText(basePath, ASSETS, shaderFilename, b);
      var i := |basePath| + |ASSETS| - 1;
      i + 2 <= |text| && text[i] != SLASH && text[i + 1] == SLASH
  {
    var text := PathText(basePath, ASSETS, shaderFilename, b);
    var i := |basePath| + |ASSETS| - 1;
    assert text == basePath + ASSETS + Directory(b) + shaderFilename + Extension(b);
    assert text[i] == ASSETS[|ASSETS| - 1] != SLASH;
    assert text[i + 1] == Directory(b)[0];
  }
}
