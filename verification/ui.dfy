/**
 * The observable outputs of the pages, with rendering stripped away: a badge or
 * marker colour is one of four tones, and a handler's visible effects are toasts
 * and navigations.
 */
module Ui {

  /** The colour family of a `bg-<tone> text-<tone>-foreground` class pair. */
  datatype Tone = Success | Warning | Destructive | Muted

  /** A toast (its title and whether it uses the destructive variant) or a navigation. */
  datatype Event = Toast(title: string, destructive: bool) | Navigate(to: string)
}
