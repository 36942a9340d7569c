/** The camera controller and the yaw/pitch camera it steers. Their definitions are not part of
    this model: the controller's state is an abstract type and its operations are uninterpreted
    total functions, so the model only fixes when they are called and what is done with their
    answers. */
module Controller {
  import opened Cgmath
  import opened Winit

  /** The yaw/pitch camera that `CameraUniform::update_view_proj` reads: it has a position, and
      its view matrix (`Camera::calc_matrix`) is `ViewMatrix`. */
  datatype Camera = Camera(position: Vec3, yaw: real, pitch: real)

  /** The camera's `calc_matrix`; not modelled. */
  const ViewMatrix: Camera -> Mat4

  /** Whatever the controller remembers between events (keys held, speed, ...). */
  type CameraController(==, 0)

  /** `CameraController::process_events(&mut self, event) -> bool`: the new controller state and
      whether the controller consumed the event; not modelled. */
  const ProcessEvents: (CameraController, WindowEvent) -> (CameraController, bool)

  /** `CameraController::update_camera(&mut self, &mut camera)`: the new controller state and
      camera; not modelled. */
  const UpdateCamera: (CameraController, Camera) -> (CameraController, Camera)
}
