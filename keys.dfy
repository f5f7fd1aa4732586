/**
 * Facts about the loader's key tables: no key is a prefix of a key the chain tries
 * before it, so a line that starts with a key never matches an earlier entry of the
 * chain, and no key begins with a blank. Each fact is checked entry by entry on the
 * literal tables, one key per lemma.
 */
module KeyTables {
  import opened Text
  import opened Scan
  import opened Loader

  /** A key ParseKey can find after blanks: it is not empty and does not start with a blank. */
  predicate Solid(key: string)
  {
    0 < |key| && !IsBlank(key[0])
  }

  /** "window_size" is solid and clashes with the global keys before it. */
  lemma WindowSizeClashes()
    ensures Solid(GlobalKeys[1]) && ClashesBelow(GlobalKeys, GlobalKeys[1], 1)
  {
    assert GlobalKeys[1] == "window_size";
    assert Clash(GlobalKeys[0], "window_size", 0);
    assert ClashesBelow(GlobalKeys, "window_size", 1);
  }

  /** "never_ask_on_exit" is solid and clashes with the global keys before it. */
  lemma NeverAskOnExitClashes()
    ensures Solid(GlobalKeys[2]) && ClashesBelow(GlobalKeys, GlobalKeys[2], 2)
  {
    assert GlobalKeys[2] == "never_ask_on_exit";
    assert Clash(GlobalKeys[0], "never_ask_on_exit", 0);
    assert ClashesBelow(GlobalKeys, "never_ask_on_exit", 1);
    assert Clash(GlobalKeys[1], "never_ask_on_exit", 0);
    assert ClashesBelow(GlobalKeys, "never_ask_on_exit", 2);
  }

  /** "show_main_menu" is solid and clashes with the global keys before it. */
  lemma ShowMainMenuClashes()
    ensures Solid(GlobalKeys[3]) && ClashesBelow(GlobalKeys, GlobalKeys[3], 3)
  {
    assert GlobalKeys[3] == "show_main_menu";
    assert Clash(GlobalKeys[0], "show_main_menu", 0);
    assert ClashesBelow(GlobalKeys, "show_main_menu", 1);
    assert Clash(GlobalKeys[1], "show_main_menu", 0);
    assert ClashesBelow(GlobalKeys, "show_main_menu", 2);
    assert Clash(GlobalKeys[2], "show_main_menu", 0);
    assert ClashesBelow(GlobalKeys, "show_main_menu", 3);
  }

  /** "mouse_sensitivity" is solid and clashes with the global keys before it. */
  lemma MouseSensitivityClashes()
    ensures Solid(GlobalKeys[4]) && ClashesBelow(GlobalKeys, GlobalKeys[4], 4)
  {
    assert GlobalKeys[4] == "mouse_sensitivity";
    assert Clash(GlobalKeys[0], "mouse_sensitivity", 0);
    assert ClashesBelow(GlobalKeys, "mouse_sensitivity", 1);
    assert Clash(GlobalKeys[1], "mouse_sensitivity", 0);
    assert ClashesBelow(GlobalKeys, "mouse_sensitivity", 2);
    assert Clash(GlobalKeys[2], "mouse_sensitivity", 0);
    assert ClashesBelow(GlobalKeys, "mouse_sensitivity", 3);
    assert Clash(GlobalKeys[3], "mouse_sensitivity", 0);
    assert ClashesBelow(GlobalKeys, "mouse_sensitivity", 4);
  }

  /** "scroll_sensitivity" is solid and clashes with the global keys before it. */
  lemma ScrollSensitivityClashes()
    ensures Solid(GlobalKeys[5]) && ClashesBelow(GlobalKeys, GlobalKeys[5], 5)
  {
    assert GlobalKeys[5] == "scroll_sensitivity";
    assert Clash(GlobalKeys[0], "scroll_sensitivity", 0);
    assert ClashesBelow(GlobalKeys, "scroll_sensitivity", 1);
    assert Clash(GlobalKeys[1], "scroll_sensitivity", 0);
    assert ClashesBelow(GlobalKeys, "scroll_sensitivity", 2);
    assert Clash(GlobalKeys[2], "scroll_sensitivity", 0);
    assert ClashesBelow(GlobalKeys, "scroll_sensitivity", 3);
    assert Clash(GlobalKeys[3], "scroll_sensitivity", 0);
    assert ClashesBelow(GlobalKeys, "scroll_sensitivity", 4);
    assert Clash(GlobalKeys[4], "scroll_sensitivity", 0);
    assert ClashesBelow(GlobalKeys, "scroll_sensitivity", 5);
  }

  /** "move_speed_normal" is solid and clashes with the global keys before it. */
  lemma MoveSpeedNormalClashes()
    ensures Solid(GlobalKeys[6]) && ClashesBelow(GlobalKeys, GlobalKeys[6], 6)
  {
    assert GlobalKeys[6] == "move_speed_normal";
    assert Clash(GlobalKeys[0], "move_speed_normal", 0);
    assert ClashesBelow(GlobalKeys, "move_speed_normal", 1);
    assert Clash(GlobalKeys[1], "move_speed_normal", 0);
    assert ClashesBelow(GlobalKeys, "move_speed_normal", 2);
    assert Clash(GlobalKeys[2], "move_speed_normal", 0);
    assert ClashesBelow(GlobalKeys, "move_speed_normal", 3);
    assert Clash(GlobalKeys[3], "move_speed_normal", 0);
    assert ClashesBelow(GlobalKeys, "move_speed_normal", 4);
    assert Clash(GlobalKeys[4], "move_speed_normal", 0);
    assert ClashesBelow(GlobalKeys, "move_speed_normal", 5);
    assert Clash(GlobalKeys[5], "move_speed_normal", 0);
    assert ClashesBelow(GlobalKeys, "move_speed_normal", 6);
  }

  /** "move_speed_slow" is solid and clashes with the global keys before it. */
  lemma MoveSpeedSlowClashes()
    ensures Solid(GlobalKeys[7]) && ClashesBelow(GlobalKeys, GlobalKeys[7], 7)
  {
    assert GlobalKeys[7] == "move_speed_slow";
    assert Clash(GlobalKeys[0], "move_speed_slow", 0);
    assert ClashesBelow(GlobalKeys, "move_speed_slow", 1);
    assert Clash(GlobalKeys[1], "move_speed_slow", 0);
    assert ClashesBelow(GlobalKeys, "move_speed_slow", 2);
    assert Clash(GlobalKeys[2], "move_speed_slow", 0);
    assert ClashesBelow(GlobalKeys, "move_speed_slow", 3);
    assert Clash(GlobalKeys[3], "move_speed_slow", 0);
    assert ClashesBelow(GlobalKeys, "move_speed_slow", 4);
    assert Clash(GlobalKeys[4], "move_speed_slow", 0);
    assert ClashesBelow(GlobalKeys, "move_speed_slow", 5);
    assert Clash(GlobalKeys[5], "move_speed_slow", 0);
    assert ClashesBelow(GlobalKeys, "move_speed_slow", 6);
    assert Clash(GlobalKeys[6], "move_speed_slow", 0);
    assert ClashesBelow(GlobalKeys, "move_speed_slow", 7);
  }

  /** "Kp_zoom" is solid and clashes with the global keys before it. */
  lemma KpZoomClashes()
    ensures Solid(GlobalKeys[8]) && ClashesBelow(GlobalKeys, GlobalKeys[8], 8)
  {
    assert GlobalKeys[8] == "Kp_zoom";
    assert Clash(GlobalKeys[0], "Kp_zoom", 0);
    assert ClashesBelow(GlobalKeys, "Kp_zoom", 1);
    assert Clash(GlobalKeys[1], "Kp_zoom", 0);
    assert ClashesBelow(GlobalKeys, "Kp_zoom", 2);
    assert Clash(GlobalKeys[2], "Kp_zoom", 0);
    assert ClashesBelow(GlobalKeys, "Kp_zoom", 3);
    assert Clash(GlobalKeys[3], "Kp_zoom", 0);
    assert ClashesBelow(GlobalKeys, "Kp_zoom", 4);
    assert Clash(GlobalKeys[4], "Kp_zoom", 0);
    assert ClashesBelow(GlobalKeys, "Kp_zoom", 5);
    assert Clash(GlobalKeys[5], "Kp_zoom", 0);
    assert ClashesBelow(GlobalKeys, "Kp_zoom", 6);
    assert Clash(GlobalKeys[6], "Kp_zoom", 0);
    assert ClashesBelow(GlobalKeys, "Kp_zoom", 7);
    assert Clash(GlobalKeys[7], "Kp_zoom", 0);
    assert ClashesBelow(GlobalKeys, "Kp_zoom", 8);
  }

  /** "Kp_translate" is solid and clashes with the global keys before it. */
  lemma KpTranslateClashes()
    ensures Solid(GlobalKeys[9]) && ClashesBelow(GlobalKeys, GlobalKeys[9], 9)
  {
    assert GlobalKeys[9] == "Kp_translate";
    assert Clash(GlobalKeys[0], "Kp_translate", 0);
    assert ClashesBelow(GlobalKeys, "Kp_translate", 1);
    assert Clash(GlobalKeys[1], "Kp_translate", 0);
    assert ClashesBelow(GlobalKeys, "Kp_translate", 2);
    assert Clash(GlobalKeys[2], "Kp_translate", 0);
    assert ClashesBelow(GlobalKeys, "Kp_translate", 3);
    assert Clash(GlobalKeys[3], "Kp_translate", 0);
    assert ClashesBelow(GlobalKeys, "Kp_translate", 4);
    assert Clash(GlobalKeys[4], "Kp_translate", 0);
    assert ClashesBelow(GlobalKeys, "Kp_translate", 5);
    assert Clash(GlobalKeys[5], "Kp_translate", 0);
    assert ClashesBelow(GlobalKeys, "Kp_translate", 6);
    assert Clash(GlobalKeys[6], "Kp_translate", 0);
    assert ClashesBelow(GlobalKeys, "Kp_translate", 7);
    assert Clash(GlobalKeys[7], "Kp_translate", 0);
    assert ClashesBelow(GlobalKeys, "Kp_translate", 8);
    assert Clash(GlobalKeys[8], "Kp_translate", 0);
    assert ClashesBelow(GlobalKeys, "Kp_translate", 9);
  }

  /** "Kp_rotate" is solid and clashes with the global keys before it. */
  lemma KpRotateClashes()
    ensures Solid(GlobalKeys[10]) && ClashesBelow(GlobalKeys, GlobalKeys[10], 10)
  {
    assert GlobalKeys[10] == "Kp_rotate";
    assert Clash(GlobalKeys[0], "Kp_rotate", 0);
    assert ClashesBelow(GlobalKeys, "Kp_rotate", 1);
    assert Clash(GlobalKeys[1], "Kp_rotate", 0);
    assert ClashesBelow(GlobalKeys, "Kp_rotate", 2);
    assert Clash(GlobalKeys[2], "Kp_rotate", 0);
    assert ClashesBelow(GlobalKeys, "Kp_rotate", 3);
    assert Clash(GlobalKeys[3], "Kp_rotate", 0);
    assert ClashesBelow(GlobalKeys, "Kp_rotate", 4);
    assert Clash(GlobalKeys[4], "Kp_rotate", 0);
    assert ClashesBelow(GlobalKeys, "Kp_rotate", 5);
    assert Clash(GlobalKeys[5], "Kp_rotate", 0);
    assert ClashesBelow(GlobalKeys, "Kp_rotate", 6);
    assert Clash(GlobalKeys[6], "Kp_rotate", 0);
    assert ClashesBelow(GlobalKeys, "Kp_rotate", 7);
    assert Clash(GlobalKeys[7], "Kp_rotate", 0);
    assert ClashesBelow(GlobalKeys, "Kp_rotate", 8);
    assert Clash(GlobalKeys[8], "Kp_rotate", 0);
    assert ClashesBelow(GlobalKeys, "Kp_rotate", 9);
    assert Clash(GlobalKeys[9], "Kp_rotate", 0);
    assert ClashesBelow(GlobalKeys, "Kp_rotate", 10);
  }

  /** "font_size" is solid and clashes with the global keys before it. */
  lemma FontSizeClashes()
    ensures Solid(GlobalKeys[11]) && ClashesBelow(GlobalKeys, GlobalKeys[11], 11)
  {
    assert GlobalKeys[11] == "font_size";
    assert Clash(GlobalKeys[0], "font_size", 0);
    assert ClashesBelow(GlobalKeys, "font_size", 1);
    assert Clash(GlobalKeys[1], "font_size", 0);
    assert ClashesBelow(GlobalKeys, "font_size", 2);
    assert Clash(GlobalKeys[2], "font_size", 0);
    assert ClashesBelow(GlobalKeys, "font_size", 3);
    assert Clash(GlobalKeys[3], "font_size", 0);
    assert ClashesBelow(GlobalKeys, "font_size", 4);
    assert Clash(GlobalKeys[4], "font_size", 0);
    assert ClashesBelow(GlobalKeys, "font_size", 5);
    assert Clash(GlobalKeys[5], "font_size", 0);
    assert ClashesBelow(GlobalKeys, "font_size", 6);
    assert Clash(GlobalKeys[6], "font_size", 0);
    assert ClashesBelow(GlobalKeys, "font_size", 7);
    assert Clash(GlobalKeys[7], "font_size", 0);
    assert ClashesBelow(GlobalKeys, "font_size", 8);
    assert Clash(GlobalKeys[8], "font_size", 0);
    assert ClashesBelow(GlobalKeys, "font_size", 9);
    assert Clash(GlobalKeys[9], "font_size", 0);
    assert ClashesBelow(GlobalKeys, "font_size", 10);
    assert Clash(GlobalKeys[10], "font_size", 0);
    assert ClashesBelow(GlobalKeys, "font_size", 11);
  }

  /** "dpi_scale" is solid and clashes with the global keys before it. */
  lemma DpiScaleClashes()
    ensures Solid(GlobalKeys[12]) && ClashesBelow(GlobalKeys, GlobalKeys[12], 12)
  {
    assert GlobalKeys[12] == "dpi_scale";
    assert Clash(GlobalKeys[0], "dpi_scale", 0);
    assert ClashesBelow(GlobalKeys, "dpi_scale", 1);
    assert Clash(GlobalKeys[1], "dpi_scale", 0);
    assert ClashesBelow(GlobalKeys, "dpi_scale", 2);
    assert Clash(GlobalKeys[2], "dpi_scale", 0);
    assert ClashesBelow(GlobalKeys, "dpi_scale", 3);
    assert Clash(GlobalKeys[3], "dpi_scale", 0);
    assert ClashesBelow(GlobalKeys, "dpi_scale", 4);
    assert Clash(GlobalKeys[4], "dpi_scale", 0);
    assert ClashesBelow(GlobalKeys, "dpi_scale", 5);
    assert Clash(GlobalKeys[5], "dpi_scale", 0);
    assert ClashesBelow(GlobalKeys, "dpi_scale", 6);
    assert Clash(GlobalKeys[6], "dpi_scale", 0);
    assert ClashesBelow(GlobalKeys, "dpi_scale", 7);
    assert Clash(GlobalKeys[7], "dpi_scale", 0);
    assert ClashesBelow(GlobalKeys, "dpi_scale", 8);
    assert Clash(GlobalKeys[8], "dpi_scale", 0);
    assert ClashesBelow(GlobalKeys, "dpi_scale", 9);
    assert Clash(GlobalKeys[9], "dpi_scale", 0);
    assert ClashesBelow(GlobalKeys, "dpi_scale", 10);
    assert Clash(GlobalKeys[10], "dpi_scale", 0);
    assert ClashesBelow(GlobalKeys, "dpi_scale", 11);
    assert Clash(GlobalKeys[11], "dpi_scale", 0);
    assert ClashesBelow(GlobalKeys, "dpi_scale", 12);
  }

  /** "can_idle" is solid and clashes with the global keys before it. */
  lemma CanIdleClashes()
    ensures Solid(GlobalKeys[13]) && ClashesBelow(GlobalKeys, GlobalKeys[13], 13)
  {
    assert GlobalKeys[13] == "can_idle";
    assert Clash(GlobalKeys[0], "can_idle", 0);
    assert ClashesBelow(GlobalKeys, "can_idle", 1);
    assert Clash(GlobalKeys[1], "can_idle", 0);
    assert ClashesBelow(GlobalKeys, "can_idle", 2);
    assert Clash(GlobalKeys[2], "can_idle", 0);
    assert ClashesBelow(GlobalKeys, "can_idle", 3);
    assert Clash(GlobalKeys[3], "can_idle", 0);
    assert ClashesBelow(GlobalKeys, "can_idle", 4);
    assert Clash(GlobalKeys[4], "can_idle", 0);
    assert ClashesBelow(GlobalKeys, "can_idle", 5);
    assert Clash(GlobalKeys[5], "can_idle", 0);
    assert ClashesBelow(GlobalKeys, "can_idle", 6);
    assert Clash(GlobalKeys[6], "can_idle", 0);
    assert ClashesBelow(GlobalKeys, "can_idle", 7);
    assert Clash(GlobalKeys[7], "can_idle", 0);
    assert ClashesBelow(GlobalKeys, "can_idle", 8);
    assert Clash(GlobalKeys[8], "can_idle", 0);
    assert ClashesBelow(GlobalKeys, "can_idle", 9);
    assert Clash(GlobalKeys[9], "can_idle", 0);
    assert ClashesBelow(GlobalKeys, "can_idle", 10);
    assert Clash(GlobalKeys[10], "can_idle", 0);
    assert ClashesBelow(GlobalKeys, "can_idle", 11);
    assert Clash(GlobalKeys[11], "can_idle", 0);
    assert ClashesBelow(GlobalKeys, "can_idle", 12);
    assert Clash(GlobalKeys[12], "can_idle", 0);
    assert ClashesBelow(GlobalKeys, "can_idle", 13);
  }

  /** "auto_step_delay_ms" is solid and clashes with the global keys before it. */
  lemma AutoStepDelayMsClashes()
    ensures Solid(GlobalKeys[14]) && ClashesBelow(GlobalKeys, GlobalKeys[14], 14)
  {
    assert GlobalKeys[14] == "auto_step_delay_ms";
    assert Clash(GlobalKeys[0], "auto_step_delay_ms", 0);
    assert ClashesBelow(GlobalKeys, "auto_step_delay_ms", 1);
    assert Clash(GlobalKeys[1], "auto_step_delay_ms", 0);
    assert ClashesBelow(GlobalKeys, "auto_step_delay_ms", 2);
    assert Clash(GlobalKeys[2], "auto_step_delay_ms", 0);
    assert ClashesBelow(GlobalKeys, "auto_step_delay_ms", 3);
    assert Clash(GlobalKeys[3], "auto_step_delay_ms", 0);
    assert ClashesBelow(GlobalKeys, "auto_step_delay_ms", 4);
    assert Clash(GlobalKeys[4], "auto_step_delay_ms", 0);
    assert ClashesBelow(GlobalKeys, "auto_step_delay_ms", 5);
    assert Clash(GlobalKeys[5], "auto_step_delay_ms", 0);
    assert ClashesBelow(GlobalKeys, "auto_step_delay_ms", 6);
    assert Clash(GlobalKeys[6], "auto_step_delay_ms", 0);
    assert ClashesBelow(GlobalKeys, "auto_step_delay_ms", 7);
    assert Clash(GlobalKeys[7], "auto_step_delay_ms", 0);
    assert ClashesBelow(GlobalKeys, "auto_step_delay_ms", 8);
    assert Clash(GlobalKeys[8], "auto_step_delay_ms", 0);
    assert ClashesBelow(GlobalKeys, "auto_step_delay_ms", 9);
    assert Clash(GlobalKeys[9], "auto_step_delay_ms", 0);
    assert ClashesBelow(GlobalKeys, "auto_step_delay_ms", 10);
    assert Clash(GlobalKeys[10], "auto_step_delay_ms", 0);
    assert ClashesBelow(GlobalKeys, "auto_step_delay_ms", 11);
    assert Clash(GlobalKeys[11], "auto_step_delay_ms", 0);
    assert ClashesBelow(GlobalKeys, "auto_step_delay_ms", 12);
    assert Clash(GlobalKeys[12], "auto_step_delay_ms", 0);
    assert ClashesBelow(GlobalKeys, "auto_step_delay_ms", 13);
    assert Clash(GlobalKeys[13], "auto_step_delay_ms", 0);
    assert ClashesBelow(GlobalKeys, "auto_step_delay_ms", 14);
  }

  /** "camera_type" clashes with every global key. */
  lemma CameraTypeClashesGlobals()
    ensures ClashesBelow(GlobalKeys, FrameKeys[0], 15)
  {
    assert FrameKeys[0] == "camera_type";
    assert Clash(GlobalKeys[0], "camera_type", 0);
    assert ClashesBelow(GlobalKeys, "camera_type", 1);
    assert Clash(GlobalKeys[1], "camera_type", 0);
    assert ClashesBelow(GlobalKeys, "camera_type", 2);
    assert Clash(GlobalKeys[2], "camera_type", 0);
    assert ClashesBelow(GlobalKeys, "camera_type", 3);
    assert Clash(GlobalKeys[3], "camera_type", 0);
    assert ClashesBelow(GlobalKeys, "camera_type", 4);
    assert Clash(GlobalKeys[4], "camera_type", 0);
    assert ClashesBelow(GlobalKeys, "camera_type", 5);
    assert Clash(GlobalKeys[5], "camera_type", 0);
    assert ClashesBelow(GlobalKeys, "camera_type", 6);
    assert Clash(GlobalKeys[6], "camera_type", 0);
    assert ClashesBelow(GlobalKeys, "camera_type", 7);
    assert Clash(GlobalKeys[7], "camera_type", 0);
    assert ClashesBelow(GlobalKeys, "camera_type", 8);
    assert Clash(GlobalKeys[8], "camera_type", 0);
    assert ClashesBelow(GlobalKeys, "camera_type", 9);
    assert Clash(GlobalKeys[9], "camera_type", 0);
    assert ClashesBelow(GlobalKeys, "camera_type", 10);
    assert Clash(GlobalKeys[10], "camera_type", 0);
    assert ClashesBelow(GlobalKeys, "camera_type", 11);
    assert Clash(GlobalKeys[11], "camera_type", 0);
    assert ClashesBelow(GlobalKeys, "camera_type", 12);
    assert Clash(GlobalKeys[12], "camera_type", 0);
    assert ClashesBelow(GlobalKeys, "camera_type", 13);
    assert Clash(GlobalKeys[13], "camera_type", 0);
    assert ClashesBelow(GlobalKeys, "camera_type", 14);
    assert Clash(GlobalKeys[14], "camera_type", 0);
    assert ClashesBelow(GlobalKeys, "camera_type", 15);
  }

  /** "camera_type" is solid and clashes with the frame header and with the frame keys before it. */
  lemma CameraTypeClashes()
    ensures Solid(FrameKeys[0]) && Clash(HeaderKey, FrameKeys[0], 0) && ClashesBelow(FrameKeys, FrameKeys[0], 0)
  {
    assert FrameKeys[0] == "camera_type";
  }

  /** "camera_angle_x" clashes with every global key. */
  lemma CameraAngleXClashesGlobals()
    ensures ClashesBelow(GlobalKeys, FrameKeys[1], 15)
  {
    assert FrameKeys[1] == "camera_angle_x";
    assert Clash(GlobalKeys[0], "camera_angle_x", 0);
    assert ClashesBelow(GlobalKeys, "camera_angle_x", 1);
    assert Clash(GlobalKeys[1], "camera_angle_x", 0);
    assert ClashesBelow(GlobalKeys, "camera_angle_x", 2);
    assert Clash(GlobalKeys[2], "camera_angle_x", 0);
    assert ClashesBelow(GlobalKeys, "camera_angle_x", 3);
    assert Clash(GlobalKeys[3], "camera_angle_x", 0);
    assert ClashesBelow(GlobalKeys, "camera_angle_x", 4);
    assert Clash(GlobalKeys[4], "camera_angle_x", 0);
    assert ClashesBelow(GlobalKeys, "camera_angle_x", 5);
    assert Clash(GlobalKeys[5], "camera_angle_x", 0);
    assert ClashesBelow(GlobalKeys, "camera_angle_x", 6);
    assert Clash(GlobalKeys[6], "camera_angle_x", 0);
    assert ClashesBelow(GlobalKeys, "camera_angle_x", 7);
    assert Clash(GlobalKeys[7], "camera_angle_x", 0);
    assert ClashesBelow(GlobalKeys, "camera_angle_x", 8);
    assert Clash(GlobalKeys[8], "camera_angle_x", 0);
    assert ClashesBelow(GlobalKeys, "camera_angle_x", 9);
    assert Clash(GlobalKeys[9], "camera_angle_x", 0);
    assert ClashesBelow(GlobalKeys, "camera_angle_x", 10);
    assert Clash(GlobalKeys[10], "camera_angle_x", 0);
    assert ClashesBelow(GlobalKeys, "camera_angle_x", 11);
    assert Clash(GlobalKeys[11], "camera_angle_x", 0);
    assert ClashesBelow(GlobalKeys, "camera_angle_x", 12);
    assert Clash(GlobalKeys[12], "camera_angle_x", 0);
    assert ClashesBelow(GlobalKeys, "camera_angle_x", 13);
    assert Clash(GlobalKeys[13], "camera_angle_x", 0);
    assert ClashesBelow(GlobalKeys, "camera_angle_x", 14);
    assert Clash(GlobalKeys[14], "camera_angle_x", 0);
    assert ClashesBelow(GlobalKeys, "camera_angle_x", 15);
  }

  /** "camera_angle_x" is solid and clashes with the frame header and with the frame keys before it. */
  lemma CameraAngleXClashes()
    ensures Solid(FrameKeys[1]) && Clash(HeaderKey, FrameKeys[1], 0) && ClashesBelow(FrameKeys, FrameKeys[1], 1)
  {
    assert FrameKeys[1] == "camera_angle_x";
    assert Clash(FrameKeys[0], "camera_angle_x", 0);
    assert ClashesBelow(FrameKeys, "camera_angle_x", 1);
  }

  /** "camera_angle_y" clashes with every global key. */
  lemma CameraAngleYClashesGlobals()
    ensures ClashesBelow(GlobalKeys, FrameKeys[2], 15)
  {
    assert FrameKeys[2] == "camera_angle_y";
    assert Clash(GlobalKeys[0], "camera_angle_y", 0);
    assert ClashesBelow(GlobalKeys, "camera_angle_y", 1);
    assert Clash(GlobalKeys[1], "camera_angle_y", 0);
    assert ClashesBelow(GlobalKeys, "camera_angle_y", 2);
    assert Clash(GlobalKeys[2], "camera_angle_y", 0);
    assert ClashesBelow(GlobalKeys, "camera_angle_y", 3);
    assert Clash(GlobalKeys[3], "camera_angle_y", 0);
    assert ClashesBelow(GlobalKeys, "camera_angle_y", 4);
    assert Clash(GlobalKeys[4], "camera_angle_y", 0);
    assert ClashesBelow(GlobalKeys, "camera_angle_y", 5);
    assert Clash(GlobalKeys[5], "camera_angle_y", 0);
    assert ClashesBelow(GlobalKeys, "camera_angle_y", 6);
    assert Clash(GlobalKeys[6], "camera_angle_y", 0);
    assert ClashesBelow(GlobalKeys, "camera_angle_y", 7);
    assert Clash(GlobalKeys[7], "camera_angle_y", 0);
    assert ClashesBelow(GlobalKeys, "camera_angle_y", 8);
    assert Clash(GlobalKeys[8], "camera_angle_y", 0);
    assert ClashesBelow(GlobalKeys, "camera_angle_y", 9);
    assert Clash(GlobalKeys[9], "camera_angle_y", 0);
    assert ClashesBelow(GlobalKeys, "camera_angle_y", 10);
    assert Clash(GlobalKeys[10], "camera_angle_y", 0);
    assert ClashesBelow(GlobalKeys, "camera_angle_y", 11);
    assert Clash(GlobalKeys[11], "camera_angle_y", 0);
    assert ClashesBelow(GlobalKeys, "camera_angle_y", 12);
    assert Clash(GlobalKeys[12], "camera_angle_y", 0);
    assert ClashesBelow(GlobalKeys, "camera_angle_y", 13);
    assert Clash(GlobalKeys[13], "camera_angle_y", 0);
    assert ClashesBelow(GlobalKeys, "camera_angle_y", 14);
    assert Clash(GlobalKeys[14], "camera_angle_y", 0);
    assert ClashesBelow(GlobalKeys, "camera_angle_y", 15);
  }

  /** "camera_angle_y" is solid and clashes with the frame header and with the frame keys before it. */
  lemma CameraAngleYClashes()
    ensures Solid(FrameKeys[2]) && Clash(HeaderKey, FrameKeys[2], 0) && ClashesBelow(FrameKeys, FrameKeys[2], 2)
  {
    assert FrameKeys[2] == "camera_angle_y";
    assert Clash(FrameKeys[0], "camera_angle_y", 0);
    assert ClashesBelow(FrameKeys, "camera_angle_y", 1);
    assert Clash(FrameKeys[1], "camera_angle_y", 0);
    assert ClashesBelow(FrameKeys, "camera_angle_y", 2);
  }

  /** "camera_radius" clashes with every global key. */
  lemma CameraRadiusClashesGlobals()
    ensures ClashesBelow(GlobalKeys, FrameKeys[3], 15)
  {
    assert FrameKeys[3] == "camera_radius";
    assert Clash(GlobalKeys[0], "camera_radius", 0);
    assert ClashesBelow(GlobalKeys, "camera_radius", 1);
    assert Clash(GlobalKeys[1], "camera_radius", 0);
    assert ClashesBelow(GlobalKeys, "camera_radius", 2);
    assert Clash(GlobalKeys[2], "camera_radius", 0);
    assert ClashesBelow(GlobalKeys, "camera_radius", 3);
    assert Clash(GlobalKeys[3], "camera_radius", 0);
    assert ClashesBelow(GlobalKeys, "camera_radius", 4);
    assert Clash(GlobalKeys[4], "camera_radius", 0);
    assert ClashesBelow(GlobalKeys, "camera_radius", 5);
    assert Clash(GlobalKeys[5], "camera_radius", 0);
    assert ClashesBelow(GlobalKeys, "camera_radius", 6);
    assert Clash(GlobalKeys[6], "camera_radius", 0);
    assert ClashesBelow(GlobalKeys, "camera_radius", 7);
    assert Clash(GlobalKeys[7], "camera_radius", 0);
    assert ClashesBelow(GlobalKeys, "camera_radius", 8);
    assert Clash(GlobalKeys[8], "camera_radius", 0);
    assert ClashesBelow(GlobalKeys, "camera_radius", 9);
    assert Clash(GlobalKeys[9], "camera_radius", 0);
    assert ClashesBelow(GlobalKeys, "camera_radius", 10);
    assert Clash(GlobalKeys[10], "camera_radius", 0);
    assert ClashesBelow(GlobalKeys, "camera_radius", 11);
    assert Clash(GlobalKeys[11], "camera_radius", 0);
    assert ClashesBelow(GlobalKeys, "camera_radius", 12);
    assert Clash(GlobalKeys[12], "camera_radius", 0);
    assert ClashesBelow(GlobalKeys, "camera_radius", 13);
    assert Clash(GlobalKeys[13], "camera_radius", 0);
    assert ClashesBelow(GlobalKeys, "camera_radius", 14);
    assert Clash(GlobalKeys[14], "camera_radius", 0);
    assert ClashesBelow(GlobalKeys, "camera_radius", 15);
  }

  /** "camera_radius" is solid and clashes with the frame header and with the frame keys before it. */
  lemma CameraRadiusClashes()
    ensures Solid(FrameKeys[3]) && Clash(HeaderKey, FrameKeys[3], 0) && ClashesBelow(FrameKeys, FrameKeys[3], 3)
  {
    assert FrameKeys[3] == "camera_radius";
    assert Clash(FrameKeys[0], "camera_radius", 0);
    assert ClashesBelow(FrameKeys, "camera_radius", 1);
    assert Clash(FrameKeys[1], "camera_radius", 0);
    assert ClashesBelow(FrameKeys, "camera_radius", 2);
    assert Clash(FrameKeys[2], "camera_radius", 0);
    assert ClashesBelow(FrameKeys, "camera_radius", 3);
  }

  /** "y_fov" clashes with every global key. */
  lemma YFovClashesGlobals()
    ensures ClashesBelow(GlobalKeys, FrameKeys[4], 15)
  {
    assert FrameKeys[4] == "y_fov";
    assert Clash(GlobalKeys[0], "y_fov", 0);
    assert ClashesBelow(GlobalKeys, "y_fov", 1);
    assert Clash(GlobalKeys[1], "y_fov", 0);
    assert ClashesBelow(GlobalKeys, "y_fov", 2);
    assert Clash(GlobalKeys[2], "y_fov", 0);
    assert ClashesBelow(GlobalKeys, "y_fov", 3);
    assert Clash(GlobalKeys[3], "y_fov", 0);
    assert ClashesBelow(GlobalKeys, "y_fov", 4);
    assert Clash(GlobalKeys[4], "y_fov", 0);
    assert ClashesBelow(GlobalKeys, "y_fov", 5);
    assert Clash(GlobalKeys[5], "y_fov", 0);
    assert ClashesBelow(GlobalKeys, "y_fov", 6);
    assert Clash(GlobalKeys[6], "y_fov", 0);
    assert ClashesBelow(GlobalKeys, "y_fov", 7);
    assert Clash(GlobalKeys[7], "y_fov", 0);
    assert ClashesBelow(GlobalKeys, "y_fov", 8);
    assert Clash(GlobalKeys[8], "y_fov", 0);
    assert ClashesBelow(GlobalKeys, "y_fov", 9);
    assert Clash(GlobalKeys[9], "y_fov", 0);
    assert ClashesBelow(GlobalKeys, "y_fov", 10);
    assert Clash(GlobalKeys[10], "y_fov", 0);
    assert ClashesBelow(GlobalKeys, "y_fov", 11);
    assert Clash(GlobalKeys[11], "y_fov", 0);
    assert ClashesBelow(GlobalKeys, "y_fov", 12);
    assert Clash(GlobalKeys[12], "y_fov", 0);
    assert ClashesBelow(GlobalKeys, "y_fov", 13);
    assert Clash(GlobalKeys[13], "y_fov", 0);
    assert ClashesBelow(GlobalKeys, "y_fov", 14);
    assert Clash(GlobalKeys[14], "y_fov", 0);
    assert ClashesBelow(GlobalKeys, "y_fov", 15);
  }

  /** "y_fov" is solid and clashes with the frame header and with the frame keys before it. */
  lemma YFovClashes()
    ensures Solid(FrameKeys[4]) && Clash(HeaderKey, FrameKeys[4], 0) && ClashesBelow(FrameKeys, FrameKeys[4], 4)
  {
    assert FrameKeys[4] == "y_fov";
    assert Clash(FrameKeys[0], "y_fov", 0);
    assert ClashesBelow(FrameKeys, "y_fov", 1);
    assert Clash(FrameKeys[1], "y_fov", 0);
    assert ClashesBelow(FrameKeys, "y_fov", 2);
    assert Clash(FrameKeys[2], "y_fov", 0);
    assert ClashesBelow(FrameKeys, "y_fov", 3);
    assert Clash(FrameKeys[3], "y_fov", 0);
    assert ClashesBelow(FrameKeys, "y_fov", 4);
  }

  /** "min_depth" clashes with every global key. */
  lemma MinDepthClashesGlobals()
    ensures ClashesBelow(GlobalKeys, FrameKeys[5], 15)
  {
    assert FrameKeys[5] == "min_depth";
    assert Clash(GlobalKeys[0], "min_depth", 0);
    assert ClashesBelow(GlobalKeys, "min_depth", 1);
    assert Clash(GlobalKeys[1], "min_depth", 0);
    assert ClashesBelow(GlobalKeys, "min_depth", 2);
    assert Clash(GlobalKeys[2], "min_depth", 0);
    assert ClashesBelow(GlobalKeys, "min_depth", 3);
    assert Clash(GlobalKeys[3], "min_depth", 0);
    assert ClashesBelow(GlobalKeys, "min_depth", 4);
    assert Clash(GlobalKeys[4], "min_depth", 0);
    assert ClashesBelow(GlobalKeys, "min_depth", 5);
    assert Clash(GlobalKeys[5], "min_depth", 0);
    assert ClashesBelow(GlobalKeys, "min_depth", 6);
    assert Clash(GlobalKeys[6], "min_depth", 0);
    assert ClashesBelow(GlobalKeys, "min_depth", 7);
    assert Clash(GlobalKeys[7], "min_depth", 0);
    assert ClashesBelow(GlobalKeys, "min_depth", 8);
    assert Clash(GlobalKeys[8], "min_depth", 0);
    assert ClashesBelow(GlobalKeys, "min_depth", 9);
    assert Clash(GlobalKeys[9], "min_depth", 0);
    assert ClashesBelow(GlobalKeys, "min_depth", 10);
    assert Clash(GlobalKeys[10], "min_depth", 0);
    assert ClashesBelow(GlobalKeys, "min_depth", 11);
    assert Clash(GlobalKeys[11], "min_depth", 0);
    assert ClashesBelow(GlobalKeys, "min_depth", 12);
    assert Clash(GlobalKeys[12], "min_depth", 0);
    assert ClashesBelow(GlobalKeys, "min_depth", 13);
    assert Clash(GlobalKeys[13], "min_depth", 0);
    assert ClashesBelow(GlobalKeys, "min_depth", 14);
    assert Clash(GlobalKeys[14], "min_depth", 0);
    assert ClashesBelow(GlobalKeys, "min_depth", 15);
  }

  /** "min_depth" is solid and clashes with the frame header and with the frame keys before it. */
  lemma MinDepthClashes()
    ensures Solid(FrameKeys[5]) && Clash(HeaderKey, FrameKeys[5], 0) && ClashesBelow(FrameKeys, FrameKeys[5], 5)
  {
    assert FrameKeys[5] == "min_depth";
    assert Clash(FrameKeys[0], "min_depth", 0);
    assert ClashesBelow(FrameKeys, "min_depth", 1);
    assert Clash(FrameKeys[1], "min_depth", 0);
    assert ClashesBelow(FrameKeys, "min_depth", 2);
    assert Clash(FrameKeys[2], "min_depth", 0);
    assert ClashesBelow(FrameKeys, "min_depth", 3);
    assert Clash(FrameKeys[3], "min_depth", 0);
    assert ClashesBelow(FrameKeys, "min_depth", 4);
    assert Clash(FrameKeys[4], "min_depth", 0);
    assert ClashesBelow(FrameKeys, "min_depth", 5);
  }

  /** "max_depth" clashes with every global key. */
  lemma MaxDepthClashesGlobals()
    ensures ClashesBelow(GlobalKeys, FrameKeys[6], 15)
  {
    assert FrameKeys[6] == "max_depth";
    assert Clash(GlobalKeys[0], "max_depth", 0);
    assert ClashesBelow(GlobalKeys, "max_depth", 1);
    assert Clash(GlobalKeys[1], "max_depth", 0);
    assert ClashesBelow(GlobalKeys, "max_depth", 2);
    assert Clash(GlobalKeys[2], "max_depth", 0);
    assert ClashesBelow(GlobalKeys, "max_depth", 3);
    assert Clash(GlobalKeys[3], "max_depth", 0);
    assert ClashesBelow(GlobalKeys, "max_depth", 4);
    assert Clash(GlobalKeys[4], "max_depth", 0);
    assert ClashesBelow(GlobalKeys, "max_depth", 5);
    assert Clash(GlobalKeys[5], "max_depth", 0);
    assert ClashesBelow(GlobalKeys, "max_depth", 6);
    assert Clash(GlobalKeys[6], "max_depth", 0);
    assert ClashesBelow(GlobalKeys, "max_depth", 7);
    assert Clash(GlobalKeys[7], "max_depth", 0);
    assert ClashesBelow(GlobalKeys, "max_depth", 8);
    assert Clash(GlobalKeys[8], "max_depth", 0);
    assert ClashesBelow(GlobalKeys, "max_depth", 9);
    assert Clash(GlobalKeys[9], "max_depth", 0);
    assert ClashesBelow(GlobalKeys, "max_depth", 10);
    assert Clash(GlobalKeys[10], "max_depth", 0);
    assert ClashesBelow(GlobalKeys, "max_depth", 11);
    assert Clash(GlobalKeys[11], "max_depth", 0);
    assert ClashesBelow(GlobalKeys, "max_depth", 12);
    assert Clash(GlobalKeys[12], "max_depth", 0);
    assert ClashesBelow(GlobalKeys, "max_depth", 13);
    assert Clash(GlobalKeys[13], "max_depth", 0);
    assert ClashesBelow(GlobalKeys, "max_depth", 14);
    assert Clash(GlobalKeys[14], "max_depth", 0);
    assert ClashesBelow(GlobalKeys, "max_depth", 15);
  }

  /** "max_depth" is solid and clashes with the frame header and with the frame keys before it. */
  lemma MaxDepthClashes()
    ensures Solid(FrameKeys[6]) && Clash(HeaderKey, FrameKeys[6], 0) && ClashesBelow(FrameKeys, FrameKeys[6], 6)
  {
    assert FrameKeys[6] == "max_depth";
    assert Clash(FrameKeys[0], "max_depth", 0);
    assert ClashesBelow(FrameKeys, "max_depth", 1);
    assert Clash(FrameKeys[1], "max_depth", 0);
    assert ClashesBelow(FrameKeys, "max_depth", 2);
    assert Clash(FrameKeys[2], "max_depth", 0);
    assert ClashesBelow(FrameKeys, "max_depth", 3);
    assert Clash(FrameKeys[3], "max_depth", 0);
    assert ClashesBelow(FrameKeys, "max_depth", 4);
    assert Clash(FrameKeys[4], "max_depth", 0);
    assert ClashesBelow(FrameKeys, "max_depth", 5);
    assert Clash(FrameKeys[5], "max_depth", 0);
    assert ClashesBelow(FrameKeys, "max_depth", 6);
  }

  /** "grid_visible" clashes with every global key. */
  lemma GridVisibleClashesGlobals()
    ensures ClashesBelow(GlobalKeys, FrameKeys[7], 15)
  {
    assert FrameKeys[7] == "grid_visible";
    assert Clash(GlobalKeys[0], "grid_visible", 0);
    assert ClashesBelow(GlobalKeys, "grid_visible", 1);
    assert Clash(GlobalKeys[1], "grid_visible", 0);
    assert ClashesBelow(GlobalKeys, "grid_visible", 2);
    assert Clash(GlobalKeys[2], "grid_visible", 0);
    assert ClashesBelow(GlobalKeys, "grid_visible", 3);
    assert Clash(GlobalKeys[3], "grid_visible", 0);
    assert ClashesBelow(GlobalKeys, "grid_visible", 4);
    assert Clash(GlobalKeys[4], "grid_visible", 0);
    assert ClashesBelow(GlobalKeys, "grid_visible", 5);
    assert Clash(GlobalKeys[5], "grid_visible", 0);
    assert ClashesBelow(GlobalKeys, "grid_visible", 6);
    assert Clash(GlobalKeys[6], "grid_visible", 0);
    assert ClashesBelow(GlobalKeys, "grid_visible", 7);
    assert Clash(GlobalKeys[7], "grid_visible", 0);
    assert ClashesBelow(GlobalKeys, "grid_visible", 8);
    assert Clash(GlobalKeys[8], "grid_visible", 0);
    assert ClashesBelow(GlobalKeys, "grid_visible", 9);
    assert Clash(GlobalKeys[9], "grid_visible", 0);
    assert ClashesBelow(GlobalKeys, "grid_visible", 10);
    assert Clash(GlobalKeys[10], "grid_visible", 0);
    assert ClashesBelow(GlobalKeys, "grid_visible", 11);
    assert Clash(GlobalKeys[11], "grid_visible", 0);
    assert ClashesBelow(GlobalKeys, "grid_visible", 12);
    assert Clash(GlobalKeys[12], "grid_visible", 0);
    assert ClashesBelow(GlobalKeys, "grid_visible", 13);
    assert Clash(GlobalKeys[13], "grid_visible", 0);
    assert ClashesBelow(GlobalKeys, "grid_visible", 14);
    assert Clash(GlobalKeys[14], "grid_visible", 0);
    assert ClashesBelow(GlobalKeys, "grid_visible", 15);
  }

  /** "grid_visible" is solid and clashes with the frame header and with the frame keys before it. */
  lemma GridVisibleClashes()
    ensures Solid(FrameKeys[7]) && Clash(HeaderKey, FrameKeys[7], 0) && ClashesBelow(FrameKeys, FrameKeys[7], 7)
  {
    assert FrameKeys[7] == "grid_visible";
    assert Clash(FrameKeys[0], "grid_visible", 0);
    assert ClashesBelow(FrameKeys, "grid_visible", 1);
    assert Clash(FrameKeys[1], "grid_visible", 0);
    assert ClashesBelow(FrameKeys, "grid_visible", 2);
    assert Clash(FrameKeys[2], "grid_visible", 0);
    assert ClashesBelow(FrameKeys, "grid_visible", 3);
    assert Clash(FrameKeys[3], "grid_visible", 0);
    assert ClashesBelow(FrameKeys, "grid_visible", 4);
    assert Clash(FrameKeys[4], "grid_visible", 0);
    assert ClashesBelow(FrameKeys, "grid_visible", 5);
    assert Clash(FrameKeys[5], "grid_visible", 0);
    assert ClashesBelow(FrameKeys, "grid_visible", 6);
    assert Clash(FrameKeys[6], "grid_visible", 0);
    assert ClashesBelow(FrameKeys, "grid_visible", 7);
  }

  /** "grid_scale" clashes with every global key. */
  lemma GridScaleClashesGlobals()
    ensures ClashesBelow(GlobalKeys, FrameKeys[8], 15)
  {
    assert FrameKeys[8] == "grid_scale";
    assert Clash(GlobalKeys[0], "grid_scale", 0);
    assert ClashesBelow(GlobalKeys, "grid_scale", 1);
    assert Clash(GlobalKeys[1], "grid_scale", 0);
    assert ClashesBelow(GlobalKeys, "grid_scale", 2);
    assert Clash(GlobalKeys[2], "grid_scale", 0);
    assert ClashesBelow(GlobalKeys, "grid_scale", 3);
    assert Clash(GlobalKeys[3], "grid_scale", 0);
    assert ClashesBelow(GlobalKeys, "grid_scale", 4);
    assert Clash(GlobalKeys[4], "grid_scale", 0);
    assert ClashesBelow(GlobalKeys, "grid_scale", 5);
    assert Clash(GlobalKeys[5], "grid_scale", 0);
    assert ClashesBelow(GlobalKeys, "grid_scale", 6);
    assert Clash(GlobalKeys[6], "grid_scale", 0);
    assert ClashesBelow(GlobalKeys, "grid_scale", 7);
    assert Clash(GlobalKeys[7], "grid_scale", 0);
    assert ClashesBelow(GlobalKeys, "grid_scale", 8);
    assert Clash(GlobalKeys[8], "grid_scale", 0);
    assert ClashesBelow(GlobalKeys, "grid_scale", 9);
    assert Clash(GlobalKeys[9], "grid_scale", 0);
    assert ClashesBelow(GlobalKeys, "grid_scale", 10);
    assert Clash(GlobalKeys[10], "grid_scale", 0);
    assert ClashesBelow(GlobalKeys, "grid_scale", 11);
    assert Clash(GlobalKeys[11], "grid_scale", 0);
    assert ClashesBelow(GlobalKeys, "grid_scale", 12);
    assert Clash(GlobalKeys[12], "grid_scale", 0);
    assert ClashesBelow(GlobalKeys, "grid_scale", 13);
    assert Clash(GlobalKeys[13], "grid_scale", 0);
    assert ClashesBelow(GlobalKeys, "grid_scale", 14);
    assert Clash(GlobalKeys[14], "grid_scale", 0);
    assert ClashesBelow(GlobalKeys, "grid_scale", 15);
  }

  /** "grid_scale" is solid and clashes with the frame header and with the frame keys before it. */
  lemma GridScaleClashes()
    ensures Solid(FrameKeys[8]) && Clash(HeaderKey, FrameKeys[8], 0) && ClashesBelow(FrameKeys, FrameKeys[8], 8)
  {
    assert FrameKeys[8] == "grid_scale";
    assert Clash(FrameKeys[0], "grid_scale", 0);
    assert ClashesBelow(FrameKeys, "grid_scale", 1);
    assert Clash(FrameKeys[1], "grid_scale", 0);
    assert ClashesBelow(FrameKeys, "grid_scale", 2);
    assert Clash(FrameKeys[2], "grid_scale", 0);
    assert ClashesBelow(FrameKeys, "grid_scale", 3);
    assert Clash(FrameKeys[3], "grid_scale", 0);
    assert ClashesBelow(FrameKeys, "grid_scale", 4);
    assert Clash(FrameKeys[4], "grid_scale", 0);
    assert ClashesBelow(FrameKeys, "grid_scale", 5);
    assert Clash(FrameKeys[5], "grid_scale", 0);
    assert ClashesBelow(FrameKeys, "grid_scale", 6);
    assert Clash(FrameKeys[6], "grid_scale", 0);
    assert ClashesBelow(FrameKeys, "grid_scale", 7);
    assert Clash(FrameKeys[7], "grid_scale", 0);
    assert ClashesBelow(FrameKeys, "grid_scale", 8);
  }

  /** "camera_up" clashes with every global key. */
  lemma CameraUpClashesGlobals()
    ensures ClashesBelow(GlobalKeys, FrameKeys[9], 15)
  {
    assert FrameKeys[9] == "camera_up";
    assert Clash(GlobalKeys[0], "camera_up", 0);
    assert ClashesBelow(GlobalKeys, "camera_up", 1);
    assert Clash(GlobalKeys[1], "camera_up", 0);
    assert ClashesBelow(GlobalKeys, "camera_up", 2);
    assert Clash(GlobalKeys[2], "camera_up", 0);
    assert ClashesBelow(GlobalKeys, "camera_up", 3);
    assert Clash(GlobalKeys[3], "camera_up", 0);
    assert ClashesBelow(GlobalKeys, "camera_up", 4);
    assert Clash(GlobalKeys[4], "camera_up", 0);
    assert ClashesBelow(GlobalKeys, "camera_up", 5);
    assert Clash(GlobalKeys[5], "camera_up", 0);
    assert ClashesBelow(GlobalKeys, "camera_up", 6);
    assert Clash(GlobalKeys[6], "camera_up", 0);
    assert ClashesBelow(GlobalKeys, "camera_up", 7);
    assert Clash(GlobalKeys[7], "camera_up", 0);
    assert ClashesBelow(GlobalKeys, "camera_up", 8);
    assert Clash(GlobalKeys[8], "camera_up", 0);
    assert ClashesBelow(GlobalKeys, "camera_up", 9);
    assert Clash(GlobalKeys[9], "camera_up", 0);
    assert ClashesBelow(GlobalKeys, "camera_up", 10);
    assert Clash(GlobalKeys[10], "camera_up", 0);
    assert ClashesBelow(GlobalKeys, "camera_up", 11);
    assert Clash(GlobalKeys[11], "camera_up", 0);
    assert ClashesBelow(GlobalKeys, "camera_up", 12);
    assert Clash(GlobalKeys[12], "camera_up", 0);
    assert ClashesBelow(GlobalKeys, "camera_up", 13);
    assert Clash(GlobalKeys[13], "camera_up", 0);
    assert ClashesBelow(GlobalKeys, "camera_up", 14);
    assert Clash(GlobalKeys[14], "camera_up", 0);
    assert ClashesBelow(GlobalKeys, "camera_up", 15);
  }

  /** "camera_up" is solid and clashes with the frame header and with the frame keys before it. */
  lemma CameraUpClashes()
    ensures Solid(FrameKeys[9]) && Clash(HeaderKey, FrameKeys[9], 0) && ClashesBelow(FrameKeys, FrameKeys[9], 9)
  {
    assert FrameKeys[9] == "camera_up";
    assert Clash(FrameKeys[0], "camera_up", 0);
    assert ClashesBelow(FrameKeys, "camera_up", 1);
    assert Clash(FrameKeys[1], "camera_up", 0);
    assert ClashesBelow(FrameKeys, "camera_up", 2);
    assert Clash(FrameKeys[2], "camera_up", 0);
    assert ClashesBelow(FrameKeys, "camera_up", 3);
    assert Clash(FrameKeys[3], "camera_up", 0);
    assert ClashesBelow(FrameKeys, "camera_up", 4);
    assert Clash(FrameKeys[4], "camera_up", 0);
    assert ClashesBelow(FrameKeys, "camera_up", 5);
    assert Clash(FrameKeys[5], "camera_up", 0);
    assert ClashesBelow(FrameKeys, "camera_up", 6);
    assert Clash(FrameKeys[6], "camera_up", 0);
    assert ClashesBelow(FrameKeys, "camera_up", 7);
    assert Clash(FrameKeys[7], "camera_up", 0);
    assert ClashesBelow(FrameKeys, "camera_up", 8);
    assert Clash(FrameKeys[8], "camera_up", 0);
    assert ClashesBelow(FrameKeys, "camera_up", 9);
  }

  /** "cube_visible" clashes with every global key. */
  lemma CubeVisibleClashesGlobals()
    ensures ClashesBelow(GlobalKeys, FrameKeys[10], 15)
  {
    assert FrameKeys[10] == "cube_visible";
    assert Clash(GlobalKeys[0], "cube_visible", 0);
    assert ClashesBelow(GlobalKeys, "cube_visible", 1);
    assert Clash(GlobalKeys[1], "cube_visible", 0);
    assert ClashesBelow(GlobalKeys, "cube_visible", 2);
    assert Clash(GlobalKeys[2], "cube_visible", 0);
    assert ClashesBelow(GlobalKeys, "cube_visible", 3);
    assert Clash(GlobalKeys[3], "cube_visible", 0);
    assert ClashesBelow(GlobalKeys, "cube_visible", 4);
    assert Clash(GlobalKeys[4], "cube_visible", 0);
    assert ClashesBelow(GlobalKeys, "cube_visible", 5);
    assert Clash(GlobalKeys[5], "cube_visible", 0);
    assert ClashesBelow(GlobalKeys, "cube_visible", 6);
    assert Clash(GlobalKeys[6], "cube_visible", 0);
    assert ClashesBelow(GlobalKeys, "cube_visible", 7);
    assert Clash(GlobalKeys[7], "cube_visible", 0);
    assert ClashesBelow(GlobalKeys, "cube_visible", 8);
    assert Clash(GlobalKeys[8], "cube_visible", 0);
    assert ClashesBelow(GlobalKeys, "cube_visible", 9);
    assert Clash(GlobalKeys[9], "cube_visible", 0);
    assert ClashesBelow(GlobalKeys, "cube_visible", 10);
    assert Clash(GlobalKeys[10], "cube_visible", 0);
    assert ClashesBelow(GlobalKeys, "cube_visible", 11);
    assert Clash(GlobalKeys[11], "cube_visible", 0);
    assert ClashesBelow(GlobalKeys, "cube_visible", 12);
    assert Clash(GlobalKeys[12], "cube_visible", 0);
    assert ClashesBelow(GlobalKeys, "cube_visible", 13);
    assert Clash(GlobalKeys[13], "cube_visible", 0);
    assert ClashesBelow(GlobalKeys, "cube_visible", 14);
    assert Clash(GlobalKeys[14], "cube_visible", 0);
    assert ClashesBelow(GlobalKeys, "cube_visible", 15);
  }

  /** "cube_visible" is solid and clashes with the frame header and with the frame keys before it. */
  lemma CubeVisibleClashes()
    ensures Solid(FrameKeys[10]) && Clash(HeaderKey, FrameKeys[10], 0) && ClashesBelow(FrameKeys, FrameKeys[10], 10)
  {
    assert FrameKeys[10] == "cube_visible";
    assert Clash(FrameKeys[0], "cube_visible", 0);
    assert ClashesBelow(FrameKeys, "cube_visible", 1);
    assert Clash(FrameKeys[1], "cube_visible", 0);
    assert ClashesBelow(FrameKeys, "cube_visible", 2);
    assert Clash(FrameKeys[2], "cube_visible", 0);
    assert ClashesBelow(FrameKeys, "cube_visible", 3);
    assert Clash(FrameKeys[3], "cube_visible", 0);
    assert ClashesBelow(FrameKeys, "cube_visible", 4);
    assert Clash(FrameKeys[4], "cube_visible", 0);
    assert ClashesBelow(FrameKeys, "cube_visible", 5);
    assert Clash(FrameKeys[5], "cube_visible", 0);
    assert ClashesBelow(FrameKeys, "cube_visible", 6);
    assert Clash(FrameKeys[6], "cube_visible", 0);
    assert ClashesBelow(FrameKeys, "cube_visible", 7);
    assert Clash(FrameKeys[7], "cube_visible", 0);
    assert ClashesBelow(FrameKeys, "cube_visible", 8);
    assert Clash(FrameKeys[8], "cube_visible", 0);
    assert ClashesBelow(FrameKeys, "cube_visible", 9);
    assert Clash(FrameKeys[9], "cube_visible", 0);
    assert ClashesBelow(FrameKeys, "cube_visible", 10);
  }

  /** "render_scale_down" clashes with every global key. */
  lemma RenderScaleDownClashesGlobals()
    ensures ClashesBelow(GlobalKeys, FrameKeys[11], 15)
  {
    assert FrameKeys[11] == "render_scale_down";
    assert Clash(GlobalKeys[0], "render_scale_down", 0);
    assert ClashesBelow(GlobalKeys, "render_scale_down", 1);
    assert Clash(GlobalKeys[1], "render_scale_down", 0);
    assert ClashesBelow(GlobalKeys, "render_scale_down", 2);
    assert Clash(GlobalKeys[2], "render_scale_down", 0);
    assert ClashesBelow(GlobalKeys, "render_scale_down", 3);
    assert Clash(GlobalKeys[3], "render_scale_down", 0);
    assert ClashesBelow(GlobalKeys, "render_scale_down", 4);
    assert Clash(GlobalKeys[4], "render_scale_down", 0);
    assert ClashesBelow(GlobalKeys, "render_scale_down", 5);
    assert Clash(GlobalKeys[5], "render_scale_down", 0);
    assert ClashesBelow(GlobalKeys, "render_scale_down", 6);
    assert Clash(GlobalKeys[6], "render_scale_down", 0);
    assert ClashesBelow(GlobalKeys, "render_scale_down", 7);
    assert Clash(GlobalKeys[7], "render_scale_down", 0);
    assert ClashesBelow(GlobalKeys, "render_scale_down", 8);
    assert Clash(GlobalKeys[8], "render_scale_down", 0);
    assert ClashesBelow(GlobalKeys, "render_scale_down", 9);
    assert Clash(GlobalKeys[9], "render_scale_down", 0);
    assert ClashesBelow(GlobalKeys, "render_scale_down", 10);
    assert Clash(GlobalKeys[10], "render_scale_down", 0);
    assert ClashesBelow(GlobalKeys, "render_scale_down", 11);
    assert Clash(GlobalKeys[11], "render_scale_down", 0);
    assert ClashesBelow(GlobalKeys, "render_scale_down", 12);
    assert Clash(GlobalKeys[12], "render_scale_down", 0);
    assert ClashesBelow(GlobalKeys, "render_scale_down", 13);
    assert Clash(GlobalKeys[13], "render_scale_down", 0);
    assert ClashesBelow(GlobalKeys, "render_scale_down", 14);
    assert Clash(GlobalKeys[14], "render_scale_down", 0);
    assert ClashesBelow(GlobalKeys, "render_scale_down", 15);
  }

  /** "render_scale_down" is solid and clashes with the frame header and with the frame keys before it. */
  lemma RenderScaleDownClashes()
    ensures Solid(FrameKeys[11]) && Clash(HeaderKey, FrameKeys[11], 0) && ClashesBelow(FrameKeys, FrameKeys[11], 11)
  {
    assert FrameKeys[11] == "render_scale_down";
    assert Clash(FrameKeys[0], "render_scale_down", 0);
    assert ClashesBelow(FrameKeys, "render_scale_down", 1);
    assert Clash(FrameKeys[1], "render_scale_down", 0);
    assert ClashesBelow(FrameKeys, "render_scale_down", 2);
    assert Clash(FrameKeys[2], "render_scale_down", 0);
    assert ClashesBelow(FrameKeys, "render_scale_down", 3);
    assert Clash(FrameKeys[3], "render_scale_down", 0);
    assert ClashesBelow(FrameKeys, "render_scale_down", 4);
    assert Clash(FrameKeys[4], "render_scale_down", 0);
    assert ClashesBelow(FrameKeys, "render_scale_down", 5);
    assert Clash(FrameKeys[5], "render_scale_down", 0);
    assert ClashesBelow(FrameKeys, "render_scale_down", 6);
    assert Clash(FrameKeys[6], "render_scale_down", 0);
    assert ClashesBelow(FrameKeys, "render_scale_down", 7);
    assert Clash(FrameKeys[7], "render_scale_down", 0);
    assert ClashesBelow(FrameKeys, "render_scale_down", 8);
    assert Clash(FrameKeys[8], "render_scale_down", 0);
    assert ClashesBelow(FrameKeys, "render_scale_down", 9);
    assert Clash(FrameKeys[9], "render_scale_down", 0);
    assert ClashesBelow(FrameKeys, "render_scale_down", 10);
    assert Clash(FrameKeys[10], "render_scale_down", 0);
    assert ClashesBelow(FrameKeys, "render_scale_down", 11);
  }

  /** "render_scale_up" clashes with every global key. */
  lemma RenderScaleUpClashesGlobals()
    ensures ClashesBelow(GlobalKeys, FrameKeys[12], 15)
  {
    assert FrameKeys[12] == "render_scale_up";
    assert Clash(GlobalKeys[0], "render_scale_up", 0);
    assert ClashesBelow(GlobalKeys, "render_scale_up", 1);
    assert Clash(GlobalKeys[1], "render_scale_up", 0);
    assert ClashesBelow(GlobalKeys, "render_scale_up", 2);
    assert Clash(GlobalKeys[2], "render_scale_up", 0);
    assert ClashesBelow(GlobalKeys, "render_scale_up", 3);
    assert Clash(GlobalKeys[3], "render_scale_up", 0);
    assert ClashesBelow(GlobalKeys, "render_scale_up", 4);
    assert Clash(GlobalKeys[4], "render_scale_up", 0);
    assert ClashesBelow(GlobalKeys, "render_scale_up", 5);
    assert Clash(GlobalKeys[5], "render_scale_up", 0);
    assert ClashesBelow(GlobalKeys, "render_scale_up", 6);
    assert Clash(GlobalKeys[6], "render_scale_up", 0);
    assert ClashesBelow(GlobalKeys, "render_scale_up", 7);
    assert Clash(GlobalKeys[7], "render_scale_up", 0);
    assert ClashesBelow(GlobalKeys, "render_scale_up", 8);
    assert Clash(GlobalKeys[8], "render_scale_up", 0);
    assert ClashesBelow(GlobalKeys, "render_scale_up", 9);
    assert Clash(GlobalKeys[9], "render_scale_up", 0);
    assert ClashesBelow(GlobalKeys, "render_scale_up", 10);
    assert Clash(GlobalKeys[10], "render_scale_up", 0);
    assert ClashesBelow(GlobalKeys, "render_scale_up", 11);
    assert Clash(GlobalKeys[11], "render_scale_up", 0);
    assert ClashesBelow(GlobalKeys, "render_scale_up", 12);
    assert Clash(GlobalKeys[12], "render_scale_up", 0);
    assert ClashesBelow(GlobalKeys, "render_scale_up", 13);
    assert Clash(GlobalKeys[13], "render_scale_up", 0);
    assert ClashesBelow(GlobalKeys, "render_scale_up", 14);
    assert Clash(GlobalKeys[14], "render_scale_up", 0);
    assert ClashesBelow(GlobalKeys, "render_scale_up", 15);
  }

  /** "render_scale_up" is solid and clashes with the frame header and with the frame keys before it. */
  lemma RenderScaleUpClashes()
    ensures Solid(FrameKeys[12]) && Clash(HeaderKey, FrameKeys[12], 0) && ClashesBelow(FrameKeys, FrameKeys[12], 12)
  {
    assert FrameKeys[12] == "render_scale_up";
    assert Clash(FrameKeys[0], "render_scale_up", 0);
    assert ClashesBelow(FrameKeys, "render_scale_up", 1);
    assert Clash(FrameKeys[1], "render_scale_up", 0);
    assert ClashesBelow(FrameKeys, "render_scale_up", 2);
    assert Clash(FrameKeys[2], "render_scale_up", 0);
    assert ClashesBelow(FrameKeys, "render_scale_up", 3);
    assert Clash(FrameKeys[3], "render_scale_up", 0);
    assert ClashesBelow(FrameKeys, "render_scale_up", 4);
    assert Clash(FrameKeys[4], "render_scale_up", 0);
    assert ClashesBelow(FrameKeys, "render_scale_up", 5);
    assert Clash(FrameKeys[5], "render_scale_up", 0);
    assert ClashesBelow(FrameKeys, "render_scale_up", 6);
    assert Clash(FrameKeys[6], "render_scale_up", 0);
    assert ClashesBelow(FrameKeys, "render_scale_up", 7);
    assert Clash(FrameKeys[7], "render_scale_up", 0);
    assert ClashesBelow(FrameKeys, "render_scale_up", 8);
    assert Clash(FrameKeys[8], "render_scale_up", 0);
    assert ClashesBelow(FrameKeys, "render_scale_up", 9);
    assert Clash(FrameKeys[9], "render_scale_up", 0);
    assert ClashesBelow(FrameKeys, "render_scale_up", 10);
    assert Clash(FrameKeys[10], "render_scale_up", 0);
    assert ClashesBelow(FrameKeys, "render_scale_up", 11);
    assert Clash(FrameKeys[11], "render_scale_up", 0);
    assert ClashesBelow(FrameKeys, "render_scale_up", 12);
  }

  /** A key whose first two characters rule out a match at every tail of the "[vdb]" line. */
  predicate AvoidsVdb(key: string)
  {
    1 < |key| && key[0] != '[' && key[0] != 'v' && key[0] != 'b' && key[0] != ']'
    && (key[0] == 'd' ==> key[1] != 'b')
  }

  /** No global key starts like a tail of "[vdb]": "dpi_scale" shares only the 'd' of "db]". */
  lemma GlobalKeysAvoidVdb()
    ensures forall l | 0 <= l < |GlobalKeys| :: AvoidsVdb(GlobalKeys[l])
  {
  }

  /** No frame key starts like a tail of "[vdb]". */
  lemma FrameKeysAvoidVdb()
    ensures forall l | 0 <= l < |FrameKeys| :: AvoidsVdb(FrameKeys[l])
  {
  }

  /** A key that avoids "[vdb]" clashes with each of its tails, at the first or, after a 'd', the second character. */
  lemma AvoidsVdbClash(key: string, j: nat)
    requires j < 5 && AvoidsVdb(key)
    ensures Clash(key, "[vdb]"[j..], 0)
  {
    var t := "[vdb]"[j..];
    assert t[0] == "[vdb]"[j];
    if key[0] == t[0] {
      assert j == 2;
      assert Clash(key, t, 1);
    }
  }

  /** Global key k is solid and clashes with every global key before it. */
  lemma GlobalKeyClashes(k: nat)
    requires k < |GlobalKeys|
    ensures Solid(GlobalKeys[k])
    ensures forall l | 0 <= l < k :: Clash(GlobalKeys[l], GlobalKeys[k], 0)
  {
    if k == 0 {
      assert Solid(GlobalKeys[0]);
    } else if k == 1 {
      WindowSizeClashes();
    } else if k == 2 {
      NeverAskOnExitClashes();
    } else if k == 3 {
      ShowMainMenuClashes();
    } else if k == 4 {
      MouseSensitivityClashes();
    } else if k == 5 {
      ScrollSensitivityClashes();
    } else if k == 6 {
      MoveSpeedNormalClashes();
    } else if k == 7 {
      MoveSpeedSlowClashes();
    } else if k == 8 {
      KpZoomClashes();
    } else if k == 9 {
      KpTranslateClashes();
    } else if k == 10 {
      KpRotateClashes();
    } else if k == 11 {
      FontSizeClashes();
    } else if k == 12 {
      DpiScaleClashes();
    } else if k == 13 {
      CanIdleClashes();
    } else if k == 14 {
      AutoStepDelayMsClashes();
    }
    ClashesBelowAll(GlobalKeys, GlobalKeys[k], k);
  }

  /** The frame header is solid and clashes with every global key. */
  lemma HeaderClashes()
    ensures Solid(HeaderKey)
    ensures forall l | 0 <= l < |GlobalKeys| :: Clash(GlobalKeys[l], HeaderKey, 0)
  {
    assert Clash(GlobalKeys[0], HeaderKey, 0);
    assert ClashesBelow(GlobalKeys, HeaderKey, 1);
    assert Clash(GlobalKeys[1], HeaderKey, 0);
    assert ClashesBelow(GlobalKeys, HeaderKey, 2);
    assert Clash(GlobalKeys[2], HeaderKey, 0);
    assert ClashesBelow(GlobalKeys, HeaderKey, 3);
    assert Clash(GlobalKeys[3], HeaderKey, 0);
    assert ClashesBelow(GlobalKeys, HeaderKey, 4);
    assert Clash(GlobalKeys[4], HeaderKey, 0);
    assert ClashesBelow(GlobalKeys, HeaderKey, 5);
    assert Clash(GlobalKeys[5], HeaderKey, 0);
    assert ClashesBelow(GlobalKeys, HeaderKey, 6);
    assert Clash(GlobalKeys[6], HeaderKey, 0);
    assert ClashesBelow(GlobalKeys, HeaderKey, 7);
    assert Clash(GlobalKeys[7], HeaderKey, 0);
    assert ClashesBelow(GlobalKeys, HeaderKey, 8);
    assert Clash(GlobalKeys[8], HeaderKey, 0);
    assert ClashesBelow(GlobalKeys, HeaderKey, 9);
    assert Clash(GlobalKeys[9], HeaderKey, 0);
    assert ClashesBelow(GlobalKeys, HeaderKey, 10);
    assert Clash(GlobalKeys[10], HeaderKey, 0);
    assert ClashesBelow(GlobalKeys, HeaderKey, 11);
    assert Clash(GlobalKeys[11], HeaderKey, 0);
    assert ClashesBelow(GlobalKeys, HeaderKey, 12);
    assert Clash(GlobalKeys[12], HeaderKey, 0);
    assert ClashesBelow(GlobalKeys, HeaderKey, 13);
    assert Clash(GlobalKeys[13], HeaderKey, 0);
    assert ClashesBelow(GlobalKeys, HeaderKey, 14);
    assert Clash(GlobalKeys[14], HeaderKey, 0);
    assert ClashesBelow(GlobalKeys, HeaderKey, 15);
    ClashesBelowAll(GlobalKeys, HeaderKey, |GlobalKeys|);
  }

  /** Frame key k is solid and clashes with every global key, with the frame header and with every frame key before it. */
  lemma FrameKeyClashes(k: nat)
    requires k < |FrameKeys|
    ensures Solid(FrameKeys[k])
    ensures forall l | 0 <= l < |GlobalKeys| :: Clash(GlobalKeys[l], FrameKeys[k], 0)
    ensures Clash(HeaderKey, FrameKeys[k], 0)
    ensures forall l | 0 <= l < k :: Clash(FrameKeys[l], FrameKeys[k], 0)
  {
    if k == 0 {
      CameraTypeClashesGlobals();
      CameraTypeClashes();
    } else if k == 1 {
      CameraAngleXClashesGlobals();
      CameraAngleXClashes();
    } else if k == 2 {
      CameraAngleYClashesGlobals();
      CameraAngleYClashes();
    } else if k == 3 {
      CameraRadiusClashesGlobals();
      CameraRadiusClashes();
    } else if k == 4 {
      YFovClashesGlobals();
      YFovClashes();
    } else if k == 5 {
      MinDepthClashesGlobals();
      MinDepthClashes();
    } else if k == 6 {
      MaxDepthClashesGlobals();
      MaxDepthClashes();
    } else if k == 7 {
      GridVisibleClashesGlobals();
      GridVisibleClashes();
    } else if k == 8 {
      GridScaleClashesGlobals();
      GridScaleClashes();
    } else if k == 9 {
      CameraUpClashesGlobals();
      CameraUpClashes();
    } else if k == 10 {
      CubeVisibleClashesGlobals();
      CubeVisibleClashes();
    } else if k == 11 {
      RenderScaleDownClashesGlobals();
      RenderScaleDownClashes();
    } else if k == 12 {
      RenderScaleUpClashesGlobals();
      RenderScaleUpClashes();
    }
    ClashesBelowAll(GlobalKeys, FrameKeys[k], |GlobalKeys|);
    ClashesBelowAll(FrameKeys, FrameKeys[k], k);
  }

  /** The "[vdb]" line, from each of its positions on, matches no key. */
  lemma VdbMatchesNoKey(j: nat)
    requires j < 5
    ensures MatchesNoKey("[vdb]"[j..])
  {
    var t := "[vdb]"[j..];
    GlobalKeysAvoidVdb();
    FrameKeysAvoidVdb();
    forall l | 0 <= l < |GlobalKeys|
      ensures Clash(GlobalKeys[l], t, 0)
    {
      AvoidsVdbClash(GlobalKeys[l], j);
    }
    forall l | 0 <= l < |FrameKeys|
      ensures Clash(FrameKeys[l], t, 0)
    {
      AvoidsVdbClash(FrameKeys[l], j);
    }
    assert t[0] == "[vdb]"[j];
    if j == 0 {
      assert Clash(HeaderKey, t, 1);
    }
  }
}
