/**
 * `cProgramPipeline::getShaderBuffer`: the uniform buffer of a pipeline
 * with a given name, searched first among the vertex program's buffers and
 * then among the fragment program's, each in list order.
 */
module ShaderPipeline {
  import opened D3D11Resources
  import opened GraphicsTypes

  /** No buffer in `buffers` before index `n` carries `name`. */
  ghost predicate NoneNamedBefore(buffers: seq<GpuBuffer>, name: string, n: nat)
    requires n <= |buffers|
  {
    forall j :: 0 <= j < n ==> buffers[j].name != name
  }

  /** The index of the first buffer called `name`, or None when none is. */
  function FirstNamed(buffers: seq<GpuBuffer>, name: string): (r: Option<nat>)
    ensures r.Some? ==> r.value < |buffers| && buffers[r.value].name == name
    ensures r.Some? ==> NoneNamedBefore(buffers, name, r.value)
    ensures r.None? <==> NoneNamedBefore(buffers, name, |buffers|)
    decreases |buffers|
  {
    if buffers == [] then None
    else if buffers[0].name == name then Some(0)
    else
      match FirstNamed(buffers[1..], name)
      case None =>
        assert forall j :: 1 <= j < |buffers| ==> buffers[j] == buffers[1..][j - 1];
        None
      case Some(i) =>
        assert forall j :: 1 <= j <= i ==> buffers[j] == buffers[1..][j - 1];
        Some(i + 1)
  }

  /**
   * Searching a concatenation finds the first list's match if it has one,
   * and otherwise the second list's match, shifted past the first list.
   */
  lemma {:induction false} FirstNamedAppend(a: seq<GpuBuffer>, b: seq<GpuBuffer>, name: string)
    ensures FirstNamed(a + b, name) ==
              match FirstNamed(a, name)
              case Some(i) => Some(i)
              case None => match FirstNamed(b, name)
                case Some(k) => Some(|a| + k)
                case None => None
    decreases |a|
  {
    if a == [] {
      assert a + b == b;
    } else {
      assert (a + b)[0] == a[0];
      assert (a + b)[1..] == a[1..] + b;
      FirstNamedAppend(a[1..], b, name);
    }
  }

  /** The buffers of a program pointer; a null program holds none. */
  function ProgramBuffers(p: ShaderProgram?): seq<GpuBuffer>
    reads p
  {
    if p == null then [] else p.shaderBuffers
  }

  /** The first buffer called `name` in a list, or null. */
  function NamedIn(buffers: seq<GpuBuffer>, name: string): (r: GpuBuffer?)
    ensures r != null ==> r in buffers && r.name == name
    ensures r == null <==> NoneNamedBefore(buffers, name, |buffers|)
  {
    match FirstNamed(buffers, name)
    case Some(i) => buffers[i]
    case None => null
  }

  /** `getShaderBuffer`: the vertex program's match if it has one, else the fragment program's, else null. */
  function GetShaderBuffer(pipeline: Pipeline, name: string): (r: GpuBuffer?)
    reads pipeline, pipeline.vertexProgram, pipeline.fragmentProgram
    ensures r != null ==> r.name == name
    ensures r != null ==> r in ProgramBuffers(pipeline.vertexProgram) || r in ProgramBuffers(pipeline.fragmentProgram)
    ensures var vb := ProgramBuffers(pipeline.vertexProgram);
            forall i :: 0 <= i < |vb| && vb[i].name == name && NoneNamedBefore(vb, name, i) ==> r == vb[i]
    ensures var vb := ProgramBuffers(pipeline.vertexProgram);
            var fb := ProgramBuffers(pipeline.fragmentProgram);
            NoneNamedBefore(vb, name, |vb|) ==>
              forall i :: 0 <= i < |fb| && fb[i].name == name && NoneNamedBefore(fb, name, i) ==> r == fb[i]
    ensures var vb := ProgramBuffers(pipeline.vertexProgram);
            var fb := ProgramBuffers(pipeline.fragmentProgram);
            r == null <==> NoneNamedBefore(vb, name, |vb|) && NoneNamedBefore(fb, name, |fb|)
  {
    var fromVertex := NamedIn(ProgramBuffers(pipeline.vertexProgram), name);
    if fromVertex != null then fromVertex else NamedIn(ProgramBuffers(pipeline.fragmentProgram), name)
  }

  /**
   * The two-stage lookup is one first-match search over the vertex
   * program's buffers followed by the fragment program's.
   */
  lemma GetShaderBufferIsSearchOfBoth(pipeline: Pipeline, name: string)
    ensures GetShaderBuffer(pipeline, name) ==
              NamedIn(ProgramBuffers(pipeline.vertexProgram) + ProgramBuffers(pipeline.fragmentProgram), name)
  {
    var vb := ProgramBuffers(pipeline.vertexProgram);
    var fb := ProgramBuffers(pipeline.fragmentProgram);
    FirstNamedAppend(vb, fb, name);
    match FirstNamed(vb, name)
    case Some(i) =>
      assert (vb + fb)[i] == vb[i];
    case None =>
      match FirstNamed(fb, name)
      case Some(k) =>
        assert (vb + fb)[|vb| + k] == fb[k];
      case None =>
  }
}
