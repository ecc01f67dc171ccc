// Shader: one GLSL stage. Compilation runs on the next frame after the
// source or the stage changes, and not again until one of them changes.
module Shaders {
  import opened Common
  import opened Gl
  import Paths

  datatype ShaderType = Vertex | Fragment

  function TypeEnum(t: ShaderType): (e: int)
    ensures e == GL_VERTEX_SHADER || e == GL_FRAGMENT_SHADER
  {
    match t
    case Vertex => GL_VERTEX_SHADER
    case Fragment => GL_FRAGMENT_SHADER
  }

  lemma TypeHasTwoValues()
    ensures forall t1: ShaderType, t2: ShaderType :: TypeEnum(t1) == TypeEnum(t2) ==> t1 == t2
    ensures TypeEnum(Vertex) != TypeEnum(Fragment)
  {
  }

  /**
   * The code handed to the compiler: the contents of the named file for a
   * `qrc:` or `file:` source (nothing when it cannot be opened), and the
   * source text itself, in the local 8-bit encoding, otherwise.
   */
  function SourceCode(fs: Paths.FileSystem, source: string): Bytes
  {
    if Paths.KindOf(source) == Paths.PlainName then fs.toLocal8Bit(source)
    else match fs.read(Paths.FileName(fs, source))
      case None => []
      case Some(contents) => contents
  }

  /** Only a scheme makes the shader read a file, and a file that is missing gives no code. */
  lemma SourceCodeOrigin(fs: Paths.FileSystem, source: string)
    ensures Paths.KindOf(source) == Paths.PlainName ==> SourceCode(fs, source) == fs.toLocal8Bit(source)
    ensures Paths.KindOf(source) != Paths.PlainName && fs.read(Paths.FileName(fs, source)).None? ==> SourceCode(fs, source) == []
    ensures Paths.KindOf(source) == Paths.Resource && fs.read(":" + source[4..]).Some? ==>
      SourceCode(fs, source) == fs.read(":" + source[4..]).value
  {
    if Paths.KindOf(source) == Paths.Resource {
      Paths.ResourceKeepsColon(fs, source);
    }
  }

  datatype Signal =
    | SourceChanged(source: string)
    | TypeChanged(shaderType: ShaderType)
    | HandleChanged(handle: nat)
    | CompileStatusChanged(compiled: bool)
    | CompileInfoLogChanged(log: string)

  class Shader {
    var source: string
    var shaderType: ShaderType
    /** The GLint status as the driver reported it. */
    var status: int
    var infoLog: string
    var handle: nat
    var calls: seq<Call>
    var signals: seq<Signal>

    /** compileStatus(): the stored status is GL_TRUE. */
    predicate CompileStatus()
      reads this
    {
      status == GL_TRUE
    }

    constructor ()
      ensures source == "" && shaderType == Vertex && status == GL_FALSE && !CompileStatus()
      ensures infoLog == "" && handle == 0 && calls == [] && signals == []
    {
      source := "";
      shaderType := Vertex;
      status := GL_FALSE;
      infoLog := "";
      handle := 0;
      calls := [];
      signals := [];
    }

    method SetCompileStatus(newStatus: int)
      modifies this`status, this`signals
      ensures status == newStatus
      ensures signals == old(signals) + IfChanged(old(status), newStatus, CompileStatusChanged(newStatus != 0))
    {
      if status != newStatus {
        status := newStatus;
        signals := signals + [CompileStatusChanged(newStatus != 0)];
      }
    }

    method SetHandle(newHandle: nat)
      modifies this`handle, this`signals
      ensures handle == newHandle
      ensures signals == old(signals) + IfChanged(old(handle), newHandle, HandleChanged(newHandle))
    {
      if handle != newHandle {
        handle := newHandle;
        signals := signals + [HandleChanged(newHandle)];
      }
    }

    method SetCompileInfoLog(newLog: string)
      modifies this`infoLog, this`signals
      ensures infoLog == newLog
      ensures signals == old(signals) + IfChanged(old(infoLog), newLog, CompileInfoLogChanged(newLog))
    {
      if infoLog != newLog {
        infoLog := newLog;
        signals := signals + [CompileInfoLogChanged(newLog)];
      }
    }

    /** A new source invalidates the compiled code. */
    method SetSource(newSource: string)
      modifies this`source, this`status, this`signals
      ensures source == newSource
      ensures old(source) != newSource ==>
        && !CompileStatus() && status == GL_FALSE
        && signals == old(signals) + [SourceChanged(newSource)] + IfChanged(old(status), GL_FALSE, CompileStatusChanged(false))
      ensures old(source) == newSource ==> status == old(status) && signals == old(signals)
    {
      if source != newSource {
        source := newSource;
        signals := signals + [SourceChanged(newSource)];
        SetCompileStatus(GL_FALSE);
      }
    }

    /** A new stage invalidates the compiled code. */
    method SetType(newType: ShaderType)
      modifies this`shaderType, this`status, this`signals
      ensures shaderType == newType
      ensures old(shaderType) != newType ==>
        && !CompileStatus() && status == GL_FALSE
        && signals == old(signals) + [TypeChanged(newType)] + IfChanged(old(status), GL_FALSE, CompileStatusChanged(false))
      ensures old(shaderType) == newType ==> status == old(status) && signals == old(signals)
    {
      if shaderType != newType {
        shaderType := newType;
        signals := signals + [TypeChanged(newType)];
        SetCompileStatus(GL_FALSE);
      }
    }

    method OnInit()
      modifies this`status, this`signals
      ensures status == GL_FALSE
      ensures signals == old(signals) + IfChanged(old(status), GL_FALSE, CompileStatusChanged(false))
    {
      SetCompileStatus(GL_FALSE);
    }

    /** glDeleteShader is issued even for handle 0, which GL ignores. */
    method OnShutdown()
      modifies this`handle, this`status, this`calls, this`signals
      ensures handle == 0 && status == GL_FALSE
      ensures calls == old(calls) + [DeleteShader(old(handle))]
      ensures signals == old(signals) + IfChanged(old(handle), 0, HandleChanged(0))
        + IfChanged(old(status), GL_FALSE, CompileStatusChanged(false))
    {
      calls := calls + [DeleteShader(handle)];
      SetHandle(0);
      SetCompileStatus(GL_FALSE);
    }

    /**
     * The per-frame update. `created` is what glCreateShader returns,
     * `compileResult` what glGetShaderiv(GL_COMPILE_STATUS) reports and
     * `driverLog` the info log the driver holds.
     */
    method OnUpdate(fs: Paths.FileSystem, created: nat, compileResult: int, driverLog: string)
      modifies this`handle, this`status, this`infoLog, this`calls, this`signals
      ensures old(CompileStatus()) ==>
        handle == old(handle) && status == old(status) && infoLog == old(infoLog) && calls == old(calls) && signals == old(signals)
      ensures !old(CompileStatus()) && |SourceCode(fs, source)| == 0 ==>
        && status == GL_FALSE && infoLog == "" && handle == old(handle) && calls == old(calls)
        && signals == old(signals) + IfChanged(old(status), GL_FALSE, CompileStatusChanged(false))
          + IfChanged(old(infoLog), "", CompileInfoLogChanged(""))
      ensures !old(CompileStatus()) && |SourceCode(fs, source)| > 0 ==>
        var code := SourceCode(fs, source);
        var log := if compileResult == GL_TRUE then "" else driverLog;
        && handle == created && status == compileResult && infoLog == log
        && (CompileStatus() <==> compileResult == GL_TRUE)
        && calls == old(calls) + (if old(handle) != 0 then [DeleteShader(old(handle))] else [])
          + [CreateShader(TypeEnum(shaderType), created), ShaderSource(created, code), CompileShader(created)]
        && signals == old(signals) + IfChanged(old(handle), created, HandleChanged(created))
          + IfChanged(old(status), compileResult, CompileStatusChanged(compileResult != 0))
          + IfChanged(old(infoLog), log, CompileInfoLogChanged(log))
    {
      if CompileStatus() {
        return;
      }
      var code := SourceCode(fs, source);
      if |code| > 0 {
        if handle != 0 {
          calls := calls + [DeleteShader(handle)];
        }
        calls := calls + [CreateShader(TypeEnum(shaderType), created)];
        SetHandle(created);
        calls := calls + [ShaderSource(handle, code), CompileShader(handle)];
        SetCompileStatus(compileResult);
        if compileResult == GL_TRUE {
          SetCompileInfoLog("");
        } else {
          SetCompileInfoLog(driverLog);
        }
      } else {
        SetCompileStatus(GL_FALSE);
        SetCompileInfoLog("");
      }
    }
  }

  /** Once compiled, further frames issue no GL call until the source or the stage changes. */
  method CompileOnce(s: Shader, fs: Paths.FileSystem, created: nat, driverLog: string, again: nat)
    requires |SourceCode(fs, s.source)| > 0 && !s.CompileStatus()
    modifies s
    ensures s.CompileStatus() && s.infoLog == "" && s.handle == created
    ensures |s.calls| >= |old(s.calls)|
    ensures s.calls[|old(s.calls)|..] == (if old(s.handle) != 0 then [DeleteShader(old(s.handle))] else [])
      + [CreateShader(TypeEnum(s.shaderType), created), ShaderSource(created, SourceCode(fs, s.source)), CompileShader(created)]
  {
    s.OnUpdate(fs, created, GL_TRUE, driverLog);
    var after := s.calls;
    s.OnUpdate(fs, again, GL_FALSE, driverLog);
    assert s.calls == after;
  }
}
