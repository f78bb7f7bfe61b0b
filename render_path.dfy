/**
 * A rendering path: the ordered render-target definitions and commands that
 * yield a scene's rendering, with lookups, list editing and enabling by tag.
 * The implementation file of the rendering path is not part of this model; the
 * operations follow the header's documentation and its inline members.
 */
module RenderPaths {
  import opened Wrappers

  datatype RenderTargetSizeMode = SIZE_ABSOLUTE | SIZE_VIEWPORTDIVISOR | SIZE_VIEWPORTMULTIPLIER

  datatype RenderCommandType =
    CMD_NONE | CMD_CLEAR | CMD_SCENEPASS | CMD_QUAD | CMD_FORWARDLIGHTS | CMD_LIGHTVOLUMES | CMD_RENDERUI | CMD_SENDEVENT

  datatype RenderCommandSortMode = SORT_FRONTTOBACK | SORT_BACKTOFRONT

  datatype BlendMode = BLEND_REPLACE | BLEND_ADD | BLEND_MULTIPLY | BLEND_ALPHA | BLEND_ADDALPHA
    | BLEND_PREMULALPHA | BLEND_INVDESTALPHA | BLEND_SUBTRACT | BLEND_SUBTRACTALPHA

  /** A render-target definition (its texture format and size are not modelled). */
  datatype RenderTargetInfo = RenderTargetInfo(
    name: string, tag: string, sizeMode: RenderTargetSizeMode, multiSample: int, autoResolve: bool,
    enabled: bool, cubemap: bool, filtered: bool, sRGB: bool, persistent: bool)

  /** A rendering-path command (shader names, textures, parameters and clear values are not modelled). */
  datatype RenderPathCommand = RenderPathCommand(
    tag: string, commandType: RenderCommandType, sortMode: RenderCommandSortMode, pass: string,
    outputs: seq<string>, blendMode: BlendMode, enabled: bool, useFogColor: bool, markToStencil: bool,
    useLitBase: bool, vertexLights: bool)
  {
    /** The number of output render targets. */
    function GetNumOutputs(): (n: nat)
      ensures n == |outputs|
    {
      |outputs|
    }
  }

  /** A default-initialised render target: absolute size, no multisampling, auto-resolve, enabled. */
  function DefaultRenderTargetInfo(): (info: RenderTargetInfo)
    ensures info.sizeMode == SIZE_ABSOLUTE && info.multiSample == 1 && info.autoResolve && info.enabled
    ensures !info.cubemap && !info.filtered && !info.sRGB && !info.persistent
    ensures info.name == "" && info.tag == ""
  {
    RenderTargetInfo("", "", SIZE_ABSOLUTE, 1, true, true, false, false, false, false)
  }

  /** A default-initialised command: enabled, replace blending, lit-base optimisation on, no outputs. */
  function DefaultRenderPathCommand(): (c: RenderPathCommand)
    ensures c.commandType == CMD_NONE && c.sortMode == SORT_FRONTTOBACK && c.blendMode == BLEND_REPLACE
    ensures c.enabled && c.useLitBase && !c.useFogColor && !c.markToStencil && !c.vertexLights
    ensures c.GetNumOutputs() == 0 && c.tag == ""
  {
    RenderPathCommand("", CMD_NONE, SORT_FRONTTOBACK, "", [], BLEND_REPLACE, true, false, false, true, false)
  }

  /**
   * The render targets and commands with their tagged ones toggled: an entry
   * flips its enabled state exactly when it has the tag, and nothing else in
   * any entry changes.
   */
  function Toggled(targets: seq<RenderTargetInfo>, commands: seq<RenderPathCommand>, tag: string)
    : (r: (seq<RenderTargetInfo>, seq<RenderPathCommand>))
    ensures |r.0| == |targets| && |r.1| == |commands|
    ensures forall i :: 0 <= i < |targets| ==>
              r.0[i].enabled == (targets[i].enabled != (targets[i].tag == tag)) && r.0[i].(enabled := targets[i].enabled) == targets[i]
    ensures forall i :: 0 <= i < |commands| ==>
              r.1[i].enabled == (commands[i].enabled != (commands[i].tag == tag)) && r.1[i].(enabled := commands[i].enabled) == commands[i]
  {
    (seq(|targets|, i requires 0 <= i < |targets| =>
       if targets[i].tag == tag then targets[i].(enabled := !targets[i].enabled) else targets[i]),
     seq(|commands|, i requires 0 <= i < |commands| =>
       if commands[i].tag == tag then commands[i].(enabled := !commands[i].enabled) else commands[i]))
  }

  /** Toggling the same tag twice restores both lists. */
  lemma ToggleTwiceRestores(targets: seq<RenderTargetInfo>, commands: seq<RenderPathCommand>, tag: string)
    ensures var once := Toggled(targets, commands, tag); Toggled(once.0, once.1, tag) == (targets, commands)
  {
    var once := Toggled(targets, commands, tag);
    var twice := Toggled(once.0, once.1, tag);
    assert forall i :: 0 <= i < |targets| ==> twice.0[i] == targets[i];
    assert forall i :: 0 <= i < |commands| ==> twice.1[i] == commands[i];
    assert twice.0 == targets && twice.1 == commands;
  }

  class RenderPath {
    var renderTargets: seq<RenderTargetInfo>
    var commands: seq<RenderPathCommand>

    constructor ()
      ensures renderTargets == [] && commands == []
    {
      renderTargets, commands := [], [];
    }

    function GetNumRenderTargets(): (n: nat)
      reads this
      ensures n == |renderTargets|
    {
      |renderTargets|
    }

    /** The number of commands: exactly the indices below it hold a command. */
    function GetNumCommands(): (n: nat)
      reads this
      ensures n == |commands|
      ensures forall i :: 0 <= i < n ==> GetCommand(i) == Some(commands[i])
      ensures GetCommand(n).None?
    {
      |commands|
    }

    /** The command at an index, or null if it does not exist. */
    function GetCommand(index: int): (r: Option<RenderPathCommand>)
      reads this
      requires index >= 0
      ensures r.Some? <==> index < |commands|
      ensures r.Some? ==> r.value == commands[index]
    {
      if index < |commands| then Some(commands[index]) else None
    }

    /** Whether any render target or command with the tag is enabled. */
    method IsEnabled(tag: string) returns (r: bool)
      ensures r <==>
                (exists i :: 0 <= i < |renderTargets| && renderTargets[i].tag == tag && renderTargets[i].enabled)
                || (exists i :: 0 <= i < |commands| && commands[i].tag == tag && commands[i].enabled)
    {
      var i := 0;
      while i < |renderTargets|
        invariant 0 <= i <= |renderTargets|
        invariant forall k :: 0 <= k < i ==> !(renderTargets[k].tag == tag && renderTargets[k].enabled)
      {
        if renderTargets[i].tag == tag && renderTargets[i].enabled {
          return true;
        }
        i := i + 1;
      }
      i := 0;
      while i < |commands|
        invariant 0 <= i <= |commands|
        invariant forall k :: 0 <= k < i ==> !(commands[k].tag == tag && commands[k].enabled)
      {
        if commands[i].tag == tag && commands[i].enabled {
          return true;
        }
        i := i + 1;
      }
      return false;
    }

    /** Whether a render target or command with the tag exists. */
    method IsAdded(tag: string) returns (r: bool)
      ensures r <==>
                (exists i :: 0 <= i < |renderTargets| && renderTargets[i].tag == tag)
                || (exists i :: 0 <= i < |commands| && commands[i].tag == tag)
    {
      var i := 0;
      while i < |renderTargets|
        invariant 0 <= i <= |renderTargets|
        invariant forall k :: 0 <= k < i ==> renderTargets[k].tag != tag
      {
        if renderTargets[i].tag == tag {
          return true;
        }
        i := i + 1;
      }
      i := 0;
      while i < |commands|
        invariant 0 <= i <= |commands|
        invariant forall k :: 0 <= k < i ==> commands[k].tag != tag
      {
        if commands[i].tag == tag {
          return true;
        }
        i := i + 1;
      }
      return false;
    }

    /** Enable or disable the render targets and commands with the tag. */
    method SetEnabled(tag: string, active: bool)
      modifies this
      ensures |renderTargets| == |old(renderTargets)| && |commands| == |old(commands)|
      ensures forall i :: 0 <= i < |renderTargets| ==>
                renderTargets[i] == if old(renderTargets)[i].tag == tag then old(renderTargets)[i].(enabled := active)
                                    else old(renderTargets)[i]
      ensures forall i :: 0 <= i < |commands| ==>
                commands[i] == if old(commands)[i].tag == tag then old(commands)[i].(enabled := active)
                               else old(commands)[i]
    {
      var i := 0;
      while i < |renderTargets|
        invariant 0 <= i <= |renderTargets| == |old(renderTargets)|
        invariant forall k :: 0 <= k < |renderTargets| ==>
                    renderTargets[k] == if k < i && old(renderTargets)[k].tag == tag
                                        then old(renderTargets)[k].(enabled := active) else old(renderTargets)[k]
        invariant commands == old(commands)
      {
        if renderTargets[i].tag == tag {
          renderTargets := renderTargets[i := renderTargets[i].(enabled := active)];
        }
        i := i + 1;
      }
      i := 0;
      while i < |commands|
        invariant 0 <= i <= |commands| == |old(commands)|
        invariant forall k :: 0 <= k < |commands| ==>
                    commands[k] == if k < i && old(commands)[k].tag == tag
                                   then old(commands)[k].(enabled := active) else old(commands)[k]
        invariant |renderTargets| == |old(renderTargets)|
        invariant forall k :: 0 <= k < |renderTargets| ==>
                    renderTargets[k] == if old(renderTargets)[k].tag == tag
                                        then old(renderTargets)[k].(enabled := active) else old(renderTargets)[k]
      {
        if commands[i].tag == tag {
          commands := commands[i := commands[i].(enabled := active)];
        }
        i := i + 1;
      }
    }

    /** Flip the enabled state of the render targets and commands with the tag. */
    method ToggleEnabled(tag: string)
      modifies this
      ensures renderTargets == Toggled(old(renderTargets), old(commands), tag).0
      ensures commands == Toggled(old(renderTargets), old(commands), tag).1
    {
      var i := 0;
      while i < |renderTargets|
        invariant 0 <= i <= |renderTargets| == |old(renderTargets)|
        invariant forall k :: 0 <= k < |renderTargets| ==>
                    renderTargets[k] == if k < i then Toggled(old(renderTargets), old(commands), tag).0[k] else old(renderTargets)[k]
        invariant commands == old(commands)
      {
        if renderTargets[i].tag == tag {
          renderTargets := renderTargets[i := renderTargets[i].(enabled := !renderTargets[i].enabled)];
        }
        i := i + 1;
      }
      i := 0;
      while i < |commands|
        invariant 0 <= i <= |commands| == |old(commands)|
        invariant forall k :: 0 <= k < |commands| ==>
                    commands[k] == if k < i then Toggled(old(renderTargets), old(commands), tag).1[k] else old(commands)[k]
        invariant renderTargets == Toggled(old(renderTargets), old(commands), tag).0
      {
        if commands[i].tag == tag {
          commands := commands[i := commands[i].(enabled := !commands[i].enabled)];
        }
        i := i + 1;
      }
    }

    /** Add a render target to the end of the list. */
    method AddRenderTarget(info: RenderTargetInfo)
      modifies this`renderTargets
      ensures renderTargets == old(renderTargets) + [info]
      ensures GetNumRenderTargets() == old(GetNumRenderTargets()) + 1
    {
      renderTargets := renderTargets + [info];
    }

    /** Add a command to the end of the list. */
    method AddCommand(command: RenderPathCommand)
      modifies this`commands
      ensures commands == old(commands) + [command]
      ensures GetCommand(|commands| - 1) == Some(command)
    {
      commands := commands + [command];
    }

    /**
     * Insert a command at a position; the others keep their order around it.
     * A position past the end appends, as the engine's vector insert does.
     */
    method InsertCommand(index: nat, command: RenderPathCommand)
      modifies this`commands
      ensures index <= |old(commands)| ==> commands == old(commands)[..index] + [command] + old(commands)[index..]
      ensures index > |old(commands)| ==> commands == old(commands) + [command]
      ensures GetCommand(if index <= |old(commands)| then index else |old(commands)|) == Some(command)
    {
      var at := if index <= |commands| then index else |commands|;
      commands := commands[..at] + [command] + commands[at..];
    }

    /**
     * Remove the command at an index; the others keep their order. An index
     * past the end changes nothing, as the engine's vector erase does.
     */
    method RemoveCommand(index: nat)
      modifies this`commands
      ensures index < |old(commands)| ==> commands == old(commands)[..index] + old(commands)[index + 1..]
      ensures index >= |old(commands)| ==> commands == old(commands)
    {
      if index < |commands| {
        commands := commands[..index] + commands[index + 1..];
      }
    }
  }
}
