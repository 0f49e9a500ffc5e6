/**
 The presentational vocabulary the components choose from: the icons they draw and the
 colour families of their text, badges and gradients. Markup and CSS are not modelled;
 a choice of icon or colour is one of these values.
 */
module Display {

  datatype Icon =
    | CheckCircle
    | XCircle
    | VideoIcon
    | AudioWaveformIcon
    | ImageIcon

  /** The colour family of a text class, badge or gradient (green, yellow or red). */
  datatype Tone = Green | Yellow | Red
}
