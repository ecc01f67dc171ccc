// The light nodes: BaseLight (colour and two intensities), PointLight
// (three attenuation coefficients), SpotLight (a point light with a
// direction and a cutoff) and DirectionalLight (a base light with a
// direction). Every property setter stores its value and notifies only
// when the value actually changes. One `Light` class carries all the
// fields; its `kind` says which of them the C++ class has.
module Lights {
  import opened Common

  datatype LightKind = Point | Spot | Directional

  /** A QColor: invalid when default-constructed, otherwise four channels. */
  datatype Color = InvalidColor | Rgba(r: int, g: int, b: int, a: int)

  datatype LightSignal =
    | ColorChanged(color: Color)
    | AmbientIntensityChanged(ambient: real)
    | DiffuseIntensityChanged(diffuse: real)
    | AttenuationConstantChanged(constant: real)
    | AttenuationLinearChanged(linear: real)
    | AttenuationExpChanged(exp: real)
    | DirectionChanged(direction: Vec3)
    | CutoffChanged(cutoff: real)

  /** The C++ classes that declare attenuation coefficients (SpotLight derives from PointLight). */
  predicate HasAttenuation(k: LightKind) { k == Point || k == Spot }

  /** The C++ classes that declare a direction. */
  predicate HasDirection(k: LightKind) { k == Spot || k == Directional }

  class Light {
    const kind: LightKind
    var color: Color
    var ambientIntensity: real
    var diffuseIntensity: real
    var attenuationConstant: real
    var attenuationLinear: real
    var attenuationExp: real
    var direction: Vec3
    var cutoff: real
    /** The change notifications emitted so far, oldest first. */
    var signals: seq<LightSignal>

    constructor (k: LightKind)
      ensures kind == k && color == InvalidColor
      ensures ambientIntensity == 0.0 && diffuseIntensity == 0.0
      ensures attenuationConstant == 1.0 && attenuationLinear == 0.0 && attenuationExp == 0.0
      ensures direction == Zero3 && cutoff == 0.0 && signals == []
    {
      kind := k;
      color := InvalidColor;
      ambientIntensity := 0.0;
      diffuseIntensity := 0.0;
      attenuationConstant := 1.0;
      attenuationLinear := 0.0;
      attenuationExp := 0.0;
      direction := Zero3;
      cutoff := 0.0;
      signals := [];
    }

    method SetColor(newColor: Color)
      modifies this`color, this`signals
      ensures color == newColor
      ensures signals == old(signals) + IfChanged(old(color), newColor, ColorChanged(newColor))
    {
      if color != newColor {
        color := newColor;
        signals := signals + [ColorChanged(newColor)];
      }
    }

    method SetAmbientIntensity(newAmbient: real)
      modifies this`ambientIntensity, this`signals
      ensures ambientIntensity == newAmbient
      ensures signals == old(signals) + IfChanged(old(ambientIntensity), newAmbient, AmbientIntensityChanged(newAmbient))
    {
      if ambientIntensity != newAmbient {
        ambientIntensity := newAmbient;
        signals := signals + [AmbientIntensityChanged(newAmbient)];
      }
    }

    method SetDiffuseIntensity(newDiffuse: real)
      modifies this`diffuseIntensity, this`signals
      ensures diffuseIntensity == newDiffuse
      ensures signals == old(signals) + IfChanged(old(diffuseIntensity), newDiffuse, DiffuseIntensityChanged(newDiffuse))
    {
      if diffuseIntensity != newDiffuse {
        diffuseIntensity := newDiffuse;
        signals := signals + [DiffuseIntensityChanged(newDiffuse)];
      }
    }

    method SetAttenuationConstant(newConstant: real)
      requires HasAttenuation(kind)
      modifies this`attenuationConstant, this`signals
      ensures attenuationConstant == newConstant
      ensures signals == old(signals) + IfChanged(old(attenuationConstant), newConstant, AttenuationConstantChanged(newConstant))
    {
      if attenuationConstant != newConstant {
        attenuationConstant := newConstant;
        signals := signals + [AttenuationConstantChanged(newConstant)];
      }
    }

    method SetAttenuationLinear(newLinear: real)
      requires HasAttenuation(kind)
      modifies this`attenuationLinear, this`signals
      ensures attenuationLinear == newLinear
      ensures signals == old(signals) + IfChanged(old(attenuationLinear), newLinear, AttenuationLinearChanged(newLinear))
    {
      if attenuationLinear != newLinear {
        attenuationLinear := newLinear;
        signals := signals + [AttenuationLinearChanged(newLinear)];
      }
    }

    method SetAttenuationExp(newExp: real)
      requires HasAttenuation(kind)
      modifies this`attenuationExp, this`signals
      ensures attenuationExp == newExp
      ensures signals == old(signals) + IfChanged(old(attenuationExp), newExp, AttenuationExpChanged(newExp))
    {
      if attenuationExp != newExp {
        attenuationExp := newExp;
        signals := signals + [AttenuationExpChanged(newExp)];
      }
    }

    /** SpotLight::setDirection and DirectionalLight::setDirection behave alike. */
    method SetDirection(newDirection: Vec3)
      requires HasDirection(kind)
      modifies this`direction, this`signals
      ensures direction == newDirection
      ensures signals == old(signals) + IfChanged(old(direction), newDirection, DirectionChanged(newDirection))
    {
      if direction != newDirection {
        direction := newDirection;
        signals := signals + [DirectionChanged(newDirection)];
      }
    }

    method SetCutoff(newCutoff: real)
      requires kind == Spot
      modifies this`cutoff, this`signals
      ensures cutoff == newCutoff
      ensures signals == old(signals) + IfChanged(old(cutoff), newCutoff, CutoffChanged(newCutoff))
    {
      if cutoff != newCutoff {
        cutoff := newCutoff;
        signals := signals + [CutoffChanged(newCutoff)];
      }
    }
  }

  /**
   * A setter called a second time with the value it was just given
   * changes nothing and emits nothing; shown for the colour and the
   * direction, the other setters have the same contract shape.
   */
  method SetColorTwice(l: Light, c: Color)
    modifies l`color, l`signals
    ensures l.color == c
    ensures l.signals == old(l.signals) + IfChanged(old(l.color), c, ColorChanged(c))
  {
    l.SetColor(c);
    var once := l.signals;
    l.SetColor(c);
    assert l.signals == once;
  }

  method SetDirectionTwice(l: Light, v: Vec3)
    requires HasDirection(l.kind)
    modifies l`direction, l`signals
    ensures l.direction == v
    ensures l.signals == old(l.signals) + IfChanged(old(l.direction), v, DirectionChanged(v))
  {
    l.SetDirection(v);
    var once := l.signals;
    l.SetDirection(v);
    assert l.signals == once;
  }
}
