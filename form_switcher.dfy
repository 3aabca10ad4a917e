/**
  The player's Light/Shadow form (Assets/PlayerFormSwitcher.cs): a toggle
  key with a cooldown, the layer of the player's whole subtree following the
  form, and the tint of the player's sprites.
*/
module FormSwitching {
  import opened Engine

  datatype Form = Light | Shadow

  /** The form a toggle switches to. */
  function Toggled(f: Form): (g: Form)
    ensures g != f
  {
    if f == Light then Shadow else Light
  }

  /** Toggling twice restores the form. */
  lemma ToggleTwice(f: Form)
    ensures Toggled(Toggled(f)) == f
  {
  }

  /** The layer name of a form. */
  function LayerNameFor(f: Form, lightLayerName: string, shadowLayerName: string): (name: string)
    ensures f == Light ==> name == lightLayerName
    ensures f == Shadow ==> name == shadowLayerName
  {
    if f == Light then lightLayerName else shadowLayerName
  }

  datatype Color = Color(r: real, g: real, b: real, a: real)

  const White: Color := Color(1.0, 1.0, 1.0, 1.0)
  const ShadowTint: Color := Color(0.0, 0.0, 0.0, 0.9)

  /** A sprite renderer: only its colour matters here. */
  class SpriteRenderer {
    var color: Color

    constructor (color: Color)
      ensures this.color == color
    {
      this.color := color;
    }
  }

  /** The toggle cooldown's decision for one frame. */
  datatype Gate = Gate(toggle: bool, nextToggle: real)

  /**
    A frame with the key down at time `now` toggles exactly when `now` has
    reached `nextToggle`, and a toggle pushes `nextToggle` to `now + cooldown`.
  */
  function CooldownGate(nextToggle: real, keyDown: bool, now: real, cooldown: real): (g: Gate)
    ensures g.toggle <==> keyDown && now >= nextToggle
    ensures g.toggle ==> g.nextToggle == now + cooldown
    ensures !g.toggle ==> g.nextToggle == nextToggle
  {
    if keyDown && now >= nextToggle then Gate(true, now + cooldown) else Gate(false, nextToggle)
  }

  /** A frame of input: whether the toggle key went down, and the clock's time. */
  datatype Frame = Frame(keyDown: bool, now: real)

  /** The times at which key-driven toggles happen over a run of frames. */
  function ToggleTimes(nextToggle: real, cooldown: real, frames: seq<Frame>): (times: seq<real>)
    decreases |frames|
  {
    if frames == [] then []
    else
      var g := CooldownGate(nextToggle, frames[0].keyDown, frames[0].now, cooldown);
      (if g.toggle then [frames[0].now] else []) + ToggleTimes(g.nextToggle, cooldown, frames[1..])
  }

  /**
    Key-driven toggles are at least `cooldown` apart, and the first one is no
    earlier than the starting `nextToggle`. The clock need not be monotone.
  */
  lemma {:induction false} TogglesSpaced(nextToggle: real, cooldown: real, frames: seq<Frame>)
    decreases |frames|
    ensures var t := ToggleTimes(nextToggle, cooldown, frames);
            && (|t| > 0 ==> t[0] >= nextToggle)
            && (forall k :: 0 <= k < |t| - 1 ==> t[k + 1] >= t[k] + cooldown)
  {
    if frames != [] {
      var g := CooldownGate(nextToggle, frames[0].keyDown, frames[0].now, cooldown);
      var rest := ToggleTimes(g.nextToggle, cooldown, frames[1..]);
      TogglesSpaced(g.nextToggle, cooldown, frames[1..]);
      var t := ToggleTimes(nextToggle, cooldown, frames);
      assert t == (if g.toggle then [frames[0].now] else []) + rest;
      if g.toggle {
        assert t[0] == frames[0].now;
        forall k | 0 <= k < |t| - 1 ensures t[k + 1] >= t[k] + cooldown {
          if k > 0 {
            assert t[k] == rest[k - 1] && t[k + 1] == rest[k];
          }
        }
      }
    }
  }

  class PlayerFormSwitcher {
    /** The game object the script sits on: the root of the player's subtree. */
    const gameObject: GameObject
    const toggleCooldown: real
    const lightLayerName: string
    const shadowLayerName: string
    const lightColor: Color
    const shadowColor: Color
    const useTint: bool
    var visuals: seq<SpriteRenderer?>
    var currentForm: Form
    var nextToggle: real

    /** The renderers a tint reaches: the non-null entries of `visuals`. */
    ghost function Renderers(): (rs: set<SpriteRenderer>)
      reads this
    {
      set r: SpriteRenderer | r in visuals
    }

    function FormColor(f: Form): (c: Color)
      reads this
      ensures f == Light ==> c == lightColor
      ensures f == Shadow ==> c == shadowColor
    {
      if f == Light then lightColor else shadowColor
    }

    /** A component with the inspector's settings; the form starts as Light. */
    constructor (gameObject: GameObject, toggleCooldown: real, lightLayerName: string, shadowLayerName: string,
                 lightColor: Color, shadowColor: Color, useTint: bool, visuals: seq<SpriteRenderer?>)
      ensures this.gameObject == gameObject && this.toggleCooldown == toggleCooldown
      ensures this.lightLayerName == lightLayerName && this.shadowLayerName == shadowLayerName
      ensures this.lightColor == lightColor && this.shadowColor == shadowColor
      ensures this.useTint == useTint && this.visuals == visuals
      ensures currentForm == Light && nextToggle == 0.0
    {
      this.gameObject := gameObject;
      this.toggleCooldown := toggleCooldown;
      this.lightLayerName := lightLayerName;
      this.shadowLayerName := shadowLayerName;
      this.lightColor := lightColor;
      this.shadowColor := shadowColor;
      this.useTint := useTint;
      this.visuals := visuals;
      this.currentForm := Light;
      this.nextToggle := 0.0;
    }

    /**
      A component with the script's default settings: cooldown 0.15 seconds,
      the layers Player-light and Player-shadow, white for Light and a 90%
      opaque black for Shadow, tinting on, no renderers configured.
    */
    constructor Default(gameObject: GameObject)
      ensures this.gameObject == gameObject && toggleCooldown == 0.15
      ensures lightLayerName == PlayerLightName && shadowLayerName == PlayerShadowName
      ensures lightColor == White && shadowColor == ShadowTint
      ensures useTint && visuals == []
      ensures currentForm == Light && nextToggle == 0.0
    {
      this.gameObject := gameObject;
      this.toggleCooldown := 0.15;
      this.lightLayerName := PlayerLightName;
      this.shadowLayerName := PlayerShadowName;
      this.lightColor := White;
      this.shadowColor := ShadowTint;
      this.useTint := true;
      this.visuals := [];
      this.currentForm := Light;
      this.nextToggle := 0.0;
    }

    /** With no renderers configured, the script takes every sprite renderer `found` in its subtree. */
    method Awake(found: seq<SpriteRenderer?>)
      modifies this`visuals
      ensures visuals == if old(visuals) == [] then found else old(visuals)
    {
      if visuals == [] {
        visuals := found;
      }
    }

    /**
      What ApplyForm(f) leaves behind, given the layer `layer` the lookup of
      the form's layer name returned, and the renderers `renderers` the
      tint reaches: nothing changes when the lookup failed;
      otherwise every object of the subtree gets the layer and, when tinting,
      every renderer gets the form's colour.
    */
    twostate predicate Applied(f: Form, layer: int, renderers: set<SpriteRenderer>)
      reads this, gameObject.Repr, renderers
    {
      && (layer == -1 ==> unchanged(gameObject.Repr) && unchanged(renderers))
      && (layer != -1 ==>
            && (forall n :: n in gameObject.Repr ==> n.layer == layer && n.destroyed == old(n.destroyed))
            && (useTint ==> forall r :: r in renderers ==> r.color == FormColor(f))
            && (!useTint ==> unchanged(renderers)))
    }

    method Start(table: map<string, int>)
      requires gameObject.Valid()
      modifies gameObject.Repr, Renderers()
      ensures Applied(currentForm, NameToLayer(table, LayerNameFor(currentForm, lightLayerName, shadowLayerName)), Renderers())
    {
      ApplyForm(currentForm, false, table);
    }

    /**
      One frame: `keyDown` is the toggle key going down this frame, `now` the
      clock. Toggles only when the key is down and the cooldown has passed,
      and then restarts the cooldown.
    */
    method Update(keyDown: bool, now: real, table: map<string, int>)
      requires gameObject.Valid()
      modifies this`currentForm, this`nextToggle, gameObject.Repr, Renderers()
      ensures var g := CooldownGate(old(nextToggle), keyDown, now, toggleCooldown);
              && nextToggle == g.nextToggle
              && currentForm == (if g.toggle then Toggled(old(currentForm)) else old(currentForm))
              && (g.toggle ==> Applied(currentForm, NameToLayer(table, LayerNameFor(currentForm, lightLayerName, shadowLayerName)), Renderers()))
              && (!g.toggle ==> unchanged(gameObject.Repr) && unchanged(Renderers()))
    {
      if keyDown && now >= nextToggle {
        ToggleForm(table);
        nextToggle := now + toggleCooldown;
      }
    }

    method ToggleForm(table: map<string, int>)
      requires gameObject.Valid()
      modifies this`currentForm, gameObject.Repr, Renderers()
      ensures currentForm == Toggled(old(currentForm))
      ensures Applied(currentForm, NameToLayer(table, LayerNameFor(currentForm, lightLayerName, shadowLayerName)), Renderers())
    {
      SetForm(if currentForm == Light then Shadow else Light, table);
    }

    /** The form changes first, so it changes even when the layer lookup then fails. */
    method SetForm(f: Form, table: map<string, int>)
      requires gameObject.Valid()
      modifies this`currentForm, gameObject.Repr, Renderers()
      ensures currentForm == f
      ensures Applied(f, NameToLayer(table, LayerNameFor(f, lightLayerName, shadowLayerName)), Renderers())
    {
      currentForm := f;
      ApplyForm(f, true, table);
    }

    /** `doFx` would start the squash effect, which is not modelled. */
    method ApplyForm(f: Form, doFx: bool, table: map<string, int>)
      requires gameObject.Valid()
      modifies gameObject.Repr, Renderers()
      ensures Applied(f, NameToLayer(table, LayerNameFor(f, lightLayerName, shadowLayerName)), Renderers())
    {
      var layerName := if f == Light then lightLayerName else shadowLayerName;
      var layer := NameToLayer(table, layerName);
      if layer == -1 {
        return;
      }
      SetLayerRecursively(gameObject, layer);

      if useTint {
        var c := if f == Light then lightColor else shadowColor;
        for i := 0 to |visuals|
          invariant forall j :: 0 <= j < i && visuals[j] != null ==> visuals[j].color == c
          invariant forall n :: n in gameObject.Repr ==> n.layer == layer && n.destroyed == old(n.destroyed)
        {
          var r := visuals[i];
          if r != null {
            r.color := c;
          }
        }
      }
    }

    /** Every object of the subtree under `go` gets `layer`; nothing else changes. */
    static method SetLayerRecursively(go: GameObject, layer: int)
      requires go.Valid()
      modifies go.Repr
      ensures forall n :: n in go.Repr ==> n.layer == layer && n.destroyed == old(n.destroyed)
      decreases go.Repr
    {
      go.layer := layer;
      for i := 0 to |go.children|
        invariant go.layer == layer
        invariant forall j, n :: 0 <= j < i && n in go.children[j].Repr ==> n.layer == layer
        invariant forall n :: n in go.Repr ==> n.destroyed == old(n.destroyed)
      {
        ChildInvariant(go, i);
        SetLayerRecursively(go.children[i], layer);
      }
      forall n | n in go.Repr && n != go
        ensures n.layer == layer
      {
        ReprOfAllMember(go.children, n);
      }
    }
  }
}
