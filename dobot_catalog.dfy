/**
 * The command table of the Dobot clients: one row per `@send()` stub, with the stub's name and
 * its parameters after `self` as declared, each with its default (None for a required one).
 * The stubs are the same, in the same order, in service/dobot.py and in src/dobot.py.
 */
module DobotCatalog {
  import opened Common
  import opened Text
  import opened Numbers
  import opened DobotCommand

  // service/dobot.py:264-265, src/dobot.py:141-142
  const RequestControl: OpSpec := OpSpec("RequestControl", [])
  // service/dobot.py:268-269, src/dobot.py:145-146
  const PowerON: OpSpec := OpSpec("PowerON", [])
  // service/dobot.py:272-280, src/dobot.py:149-157
  const EnableRobot: OpSpec := OpSpec("EnableRobot", [ParamSpec("load", Some(Null)), ParamSpec("centerX", Some(Null)), ParamSpec("centerY", Some(Null)), ParamSpec("centerZ", Some(Null)), ParamSpec("isCheck", Some(Null))])
  // service/dobot.py:283-284, src/dobot.py:160-161
  const DisableRobot: OpSpec := OpSpec("DisableRobot", [])
  // service/dobot.py:287-288, src/dobot.py:164-165
  const ClearError: OpSpec := OpSpec("ClearError", [])
  // service/dobot.py:291-292, src/dobot.py:168-169
  const RunScript: OpSpec := OpSpec("RunScript", [ParamSpec("projectName", None)])
  // service/dobot.py:295-296, src/dobot.py:172-173
  const Stop: OpSpec := OpSpec("Stop", [])
  // service/dobot.py:299-300, src/dobot.py:176-177
  const Pause: OpSpec := OpSpec("Pause", [])
  // service/dobot.py:303-304, src/dobot.py:180-181
  const Continue: OpSpec := OpSpec("Continue", [])
  // service/dobot.py:307-308, src/dobot.py:184-185
  const EmergencyStop: OpSpec := OpSpec("EmergencyStop", [ParamSpec("mode", None)])
  // service/dobot.py:311-312, src/dobot.py:188-189
  const BrakeControl: OpSpec := OpSpec("BrakeControl", [ParamSpec("axisID", None), ParamSpec("value", None)])
  // service/dobot.py:315-316, src/dobot.py:192-193
  const StartDrag: OpSpec := OpSpec("StartDrag", [])
  // service/dobot.py:319-320, src/dobot.py:196-197
  const StopDrag: OpSpec := OpSpec("StopDrag", [])
  // service/dobot.py:327-328, src/dobot.py:204-205
  const SpeedFactor: OpSpec := OpSpec("SpeedFactor", [ParamSpec("ratio", Some(Num(Int(0))))])
  // service/dobot.py:331-332, src/dobot.py:208-209
  const User: OpSpec := OpSpec("User", [ParamSpec("index", None)])
  // service/dobot.py:335-336, src/dobot.py:212-213
  const SetUser: OpSpec := OpSpec("SetUser", [ParamSpec("index", None), ParamSpec("value", None), ParamSpec("type", Some(Num(Int(0))))])
  // service/dobot.py:339-340, src/dobot.py:216-217
  const CalcUser: OpSpec := OpSpec("CalcUser", [ParamSpec("index", None), ParamSpec("matrix", None), ParamSpec("offset", None)])
  // service/dobot.py:343-344, src/dobot.py:220-221
  const Tool: OpSpec := OpSpec("Tool", [ParamSpec("index", Some(Num(Int(0))))])
  // service/dobot.py:347-348, src/dobot.py:224-225
  const SetTool: OpSpec := OpSpec("SetTool", [ParamSpec("index", None), ParamSpec("value", None), ParamSpec("type", Some(Num(Int(0))))])
  // service/dobot.py:351-352, src/dobot.py:228-229
  const CalcTool: OpSpec := OpSpec("CalcTool", [ParamSpec("index", None), ParamSpec("matrix", None), ParamSpec("offset", None)])
  // service/dobot.py:355-356, src/dobot.py:232-233
  const SetPayload: OpSpec := OpSpec("SetPayload", [ParamSpec("load_or_name", None), ParamSpec("x", Some(Null)), ParamSpec("y", Some(Null)), ParamSpec("z", Some(Null))])
  // service/dobot.py:359-360, src/dobot.py:236-237
  const AccJ: OpSpec := OpSpec("AccJ", [ParamSpec("R", Some(Num(Int(100))))])
  // service/dobot.py:363-364, src/dobot.py:240-241
  const AccL: OpSpec := OpSpec("AccL", [ParamSpec("R", Some(Num(Int(100))))])
  // service/dobot.py:367-368, src/dobot.py:244-245
  const VelJ: OpSpec := OpSpec("VelJ", [ParamSpec("R", Some(Num(Int(100))))])
  // service/dobot.py:371-372, src/dobot.py:248-249
  const VelL: OpSpec := OpSpec("VelL", [ParamSpec("R", Some(Num(Int(100))))])
  // service/dobot.py:375-376, src/dobot.py:252-253
  const CP: OpSpec := OpSpec("CP", [ParamSpec("R", Some(Num(Int(0))))])
  // service/dobot.py:379-380, src/dobot.py:256-257
  const SetCollisionLevel: OpSpec := OpSpec("SetCollisionLevel", [ParamSpec("level", None)])
  // service/dobot.py:383-384, src/dobot.py:260-261
  const SetBackDistance: OpSpec := OpSpec("SetBackDistance", [ParamSpec("distance", None)])
  // service/dobot.py:387-388, src/dobot.py:264-265
  const SetPostCollisionMode: OpSpec := OpSpec("SetPostCollisionMode", [ParamSpec("mode", None)])
  // service/dobot.py:391-392, src/dobot.py:268-269
  const DragSensitivity: OpSpec := OpSpec("DragSensitivity", [ParamSpec("index", None), ParamSpec("value", None)])
  // service/dobot.py:395-396, src/dobot.py:272-273
  const EnableSafeSkin: OpSpec := OpSpec("EnableSafeSkin", [ParamSpec("status", None)])
  // service/dobot.py:399-400, src/dobot.py:276-277
  const SetSafeSkin: OpSpec := OpSpec("SetSafeSkin", [ParamSpec("part", None), ParamSpec("status", None)])
  // service/dobot.py:403-404, src/dobot.py:280-281
  const SetSafeWallEnable: OpSpec := OpSpec("SetSafeWallEnable", [ParamSpec("index", None), ParamSpec("value", None)])
  // service/dobot.py:407-408, src/dobot.py:284-285
  const SetWorkZoneEnable: OpSpec := OpSpec("SetWorkZoneEnable", [ParamSpec("index", None), ParamSpec("value", None)])
  // service/dobot.py:415-416, src/dobot.py:292-293
  const RobotMode: OpSpec := OpSpec("RobotMode", [])
  // service/dobot.py:419-422, src/dobot.py:296-299
  const PositiveKin: OpSpec := OpSpec("PositiveKin", [ParamSpec("J1", None), ParamSpec("J2", None), ParamSpec("J3", None), ParamSpec("J4", None), ParamSpec("J5", None), ParamSpec("J6", None), ParamSpec("_user", Some(Num(Int(0)))), ParamSpec("_tool", Some(Num(Int(0))))])
  // service/dobot.py:425-438, src/dobot.py:302-315
  const InverseKin: OpSpec := OpSpec("InverseKin", [ParamSpec("X", None), ParamSpec("Y", None), ParamSpec("Z", None), ParamSpec("Rx", None), ParamSpec("Ry", None), ParamSpec("Rz", None), ParamSpec("_useJointNear", Some(Num(Int(0)))), ParamSpec("_JointNear", Some(Str(""))), ParamSpec("_user", Some(Num(Int(0)))), ParamSpec("_tool", Some(Num(Int(0))))])
  // service/dobot.py:441-442, src/dobot.py:318-319
  const GetAngle: OpSpec := OpSpec("GetAngle", [])
  // service/dobot.py:445-446, src/dobot.py:322-323
  const GetPose: OpSpec := OpSpec("GetPose", [ParamSpec("_user", Some(Num(Int(0)))), ParamSpec("_tool", Some(Num(Int(0))))])
  // service/dobot.py:449-450, src/dobot.py:326-327
  const GetErrorID: OpSpec := OpSpec("GetErrorID", [])
  // service/dobot.py:453-454, src/dobot.py:330-331
  const Create1DTray: OpSpec := OpSpec("Create1DTray", [ParamSpec("Trayname", None), ParamSpec("Count", None), ParamSpec("Points", None)])
  // service/dobot.py:457-458, src/dobot.py:334-335
  const Create2DTray: OpSpec := OpSpec("Create2DTray", [ParamSpec("Trayname", None), ParamSpec("Count", None), ParamSpec("Points", None)])
  // service/dobot.py:461-462, src/dobot.py:338-339
  const Create3DTray: OpSpec := OpSpec("Create3DTray", [ParamSpec("Trayname", None), ParamSpec("Count", None), ParamSpec("Points", None)])
  // service/dobot.py:465-466, src/dobot.py:342-343
  const GetTrayPoint: OpSpec := OpSpec("GetTrayPoint", [ParamSpec("Trayname", None), ParamSpec("index", None)])
  // service/dobot.py:473-474, src/dobot.py:350-351
  const DO: OpSpec := OpSpec("DO", [ParamSpec("index", None), ParamSpec("status", None), ParamSpec("time", Some(Null))])
  // service/dobot.py:477-478, src/dobot.py:354-355
  const DOInstant: OpSpec := OpSpec("DOInstant", [ParamSpec("index", None), ParamSpec("status", None)])
  // service/dobot.py:481-482, src/dobot.py:358-359
  const GetDO: OpSpec := OpSpec("GetDO", [ParamSpec("index", None)])
  // service/dobot.py:485-486, src/dobot.py:362-363
  const DOGroup: OpSpec := OpSpec("DOGroup", [ParamSpec("values", None)])
  // service/dobot.py:489-490, src/dobot.py:366-367
  const GetDOGroup: OpSpec := OpSpec("GetDOGroup", [ParamSpec("values", None)])
  // service/dobot.py:493-494, src/dobot.py:370-371
  const ToolDO: OpSpec := OpSpec("ToolDO", [ParamSpec("index", None), ParamSpec("status", None)])
  // service/dobot.py:497-498, src/dobot.py:374-375
  const ToolDOInstant: OpSpec := OpSpec("ToolDOInstant", [ParamSpec("index", None), ParamSpec("status", None)])
  // service/dobot.py:501-502, src/dobot.py:378-379
  const GetToolDO: OpSpec := OpSpec("GetToolDO", [ParamSpec("index", None)])
  // service/dobot.py:505-506, src/dobot.py:382-383
  const AO: OpSpec := OpSpec("AO", [ParamSpec("index", None), ParamSpec("value", None)])
  // service/dobot.py:509-510, src/dobot.py:386-387
  const AOInstant: OpSpec := OpSpec("AOInstant", [ParamSpec("index", None), ParamSpec("value", None)])
  // service/dobot.py:513-514, src/dobot.py:390-391
  const GetAO: OpSpec := OpSpec("GetAO", [ParamSpec("index", None)])
  // service/dobot.py:517-518, src/dobot.py:394-395
  const DI: OpSpec := OpSpec("DI", [ParamSpec("index", None)])
  // service/dobot.py:521-522, src/dobot.py:398-399
  const DIGroup: OpSpec := OpSpec("DIGroup", [ParamSpec("values", None)])
  // service/dobot.py:525-526, src/dobot.py:402-403
  const ToolDI: OpSpec := OpSpec("ToolDI", [ParamSpec("index", None)])
  // service/dobot.py:529-530, src/dobot.py:406-407
  const AI: OpSpec := OpSpec("AI", [ParamSpec("index", None)])
  // service/dobot.py:533-534, src/dobot.py:410-411
  const ToolAI: OpSpec := OpSpec("ToolAI", [ParamSpec("index", None)])
  // service/dobot.py:537-538, src/dobot.py:414-415
  const SetTool485: OpSpec := OpSpec("SetTool485", [ParamSpec("baud", None), ParamSpec("parity", Some(Str("N"))), ParamSpec("stopbit", Some(Num(Int(1)))), ParamSpec("identify", Some(Null))])
  // service/dobot.py:541-542, src/dobot.py:418-419
  const SetToolPower: OpSpec := OpSpec("SetToolPower", [ParamSpec("status", None), ParamSpec("identify", Some(Null))])
  // service/dobot.py:545-546, src/dobot.py:422-423
  const SetToolMode: OpSpec := OpSpec("SetToolMode", [ParamSpec("mode", None), ParamSpec("type", None), ParamSpec("identify", Some(Null))])
  // service/dobot.py:553-554, src/dobot.py:430-431
  const ModbusCreate: OpSpec := OpSpec("ModbusCreate", [ParamSpec("ip", None), ParamSpec("port", None), ParamSpec("slave_id", None), ParamSpec("isRTU", Some(Null))])
  // service/dobot.py:557-560, src/dobot.py:434-437
  const ModbusRTUCreate: OpSpec := OpSpec("ModbusRTUCreate", [ParamSpec("slave_id", None), ParamSpec("baud", None), ParamSpec("parity", Some(Str("E"))), ParamSpec("data_bit", Some(Num(Int(8)))), ParamSpec("stop_bit", Some(Num(Int(1))))])
  // service/dobot.py:563-564, src/dobot.py:440-441
  const ModbusClose: OpSpec := OpSpec("ModbusClose", [ParamSpec("index", None)])
  // service/dobot.py:567-568, src/dobot.py:444-445
  const GetInBits: OpSpec := OpSpec("GetInBits", [ParamSpec("index", None), ParamSpec("address", None), ParamSpec("count", None)])
  // service/dobot.py:571-572, src/dobot.py:448-449
  const GetInRegs: OpSpec := OpSpec("GetInRegs", [ParamSpec("index", None), ParamSpec("address", None), ParamSpec("count", None), ParamSpec("valType", Some(Str("U16")))])
  // service/dobot.py:575-576, src/dobot.py:452-453
  const GetCoils: OpSpec := OpSpec("GetCoils", [ParamSpec("index", None), ParamSpec("address", None), ParamSpec("count", None)])
  // service/dobot.py:579-580, src/dobot.py:456-457
  const SetCoils: OpSpec := OpSpec("SetCoils", [ParamSpec("index", None), ParamSpec("address", None), ParamSpec("count", None), ParamSpec("valTab", None)])
  // service/dobot.py:583-584, src/dobot.py:460-461
  const GetHoldRegs: OpSpec := OpSpec("GetHoldRegs", [ParamSpec("index", None), ParamSpec("address", None), ParamSpec("count", None), ParamSpec("valType", Some(Str("U16")))])
  // service/dobot.py:587-588, src/dobot.py:464-465
  const setHoldRegs: OpSpec := OpSpec("setHoldRegs", [ParamSpec("index", None), ParamSpec("address", None), ParamSpec("count", None), ParamSpec("valTab", None), ParamSpec("valType", Some(Str("U16")))])
  // service/dobot.py:595-596, src/dobot.py:472-473
  const GetInputBool: OpSpec := OpSpec("GetInputBool", [ParamSpec("adress", None)])
  // service/dobot.py:599-600, src/dobot.py:476-477
  const GetInputInt: OpSpec := OpSpec("GetInputInt", [ParamSpec("adress", None)])
  // service/dobot.py:603-604, src/dobot.py:480-481
  const GetInputFloat: OpSpec := OpSpec("GetInputFloat", [ParamSpec("adress", None)])
  // service/dobot.py:607-608, src/dobot.py:484-485
  const GetOutputBool: OpSpec := OpSpec("GetOutputBool", [ParamSpec("adress", None)])
  // service/dobot.py:611-612, src/dobot.py:488-489
  const GetOutputInt: OpSpec := OpSpec("GetOutputInt", [ParamSpec("adress", None)])
  // service/dobot.py:615-616, src/dobot.py:492-493
  const GetOutputFloat: OpSpec := OpSpec("GetOutputFloat", [ParamSpec("adress", None)])
  // service/dobot.py:619-620, src/dobot.py:496-497
  const SetOutputBool: OpSpec := OpSpec("SetOutputBool", [ParamSpec("adress", None), ParamSpec("value", None)])
  // service/dobot.py:623-624, src/dobot.py:500-501
  const SetOutputInt: OpSpec := OpSpec("SetOutputInt", [ParamSpec("adress", None), ParamSpec("value", None)])
  // service/dobot.py:627-628, src/dobot.py:504-505
  const SetOutputFloat: OpSpec := OpSpec("SetOutputFloat", [ParamSpec("adress", None), ParamSpec("value", None)])
  // service/dobot.py:635-644, src/dobot.py:512-521
  const MovJ: OpSpec := OpSpec("MovJ", [ParamSpec("P", None), ParamSpec("_user", Some(Null)), ParamSpec("_tool", Some(Null)), ParamSpec("_a", Some(Null)), ParamSpec("_v", Some(Null)), ParamSpec("_cp", Some(Null))])
  // service/dobot.py:647-658, src/dobot.py:524-535
  const MovL: OpSpec := OpSpec("MovL", [ParamSpec("P", None), ParamSpec("_user", Some(Null)), ParamSpec("_tool", Some(Null)), ParamSpec("_a", Some(Null)), ParamSpec("_v", Some(Null)), ParamSpec("_speed", Some(Null)), ParamSpec("_cp", Some(Null)), ParamSpec("_r", Some(Null))])
  // service/dobot.py:661-673, src/dobot.py:538-550
  const MovLIO: OpSpec := OpSpec("MovLIO", [ParamSpec("P", None), ParamSpec("io", None), ParamSpec("_user", Some(Null)), ParamSpec("_tool", Some(Null)), ParamSpec("_a", Some(Null)), ParamSpec("_v", Some(Null)), ParamSpec("_speed", Some(Null)), ParamSpec("_cp", Some(Null)), ParamSpec("_r", Some(Null))])
  // service/dobot.py:676-686, src/dobot.py:553-563
  const MovJIO: OpSpec := OpSpec("MovJIO", [ParamSpec("P", None), ParamSpec("io", None), ParamSpec("_user", Some(Null)), ParamSpec("_tool", Some(Null)), ParamSpec("_a", Some(Null)), ParamSpec("_v", Some(Null)), ParamSpec("_cp", Some(Null))])
  // service/dobot.py:689-702, src/dobot.py:566-579
  const Arc: OpSpec := OpSpec("Arc", [ParamSpec("P1", None), ParamSpec("P2", None), ParamSpec("_user", Some(Null)), ParamSpec("_tool", Some(Null)), ParamSpec("_a", Some(Null)), ParamSpec("_v", Some(Null)), ParamSpec("_speed", Some(Null)), ParamSpec("_cp", Some(Null)), ParamSpec("_r", Some(Null)), ParamSpec("ori_mode", Some(Null))])
  // service/dobot.py:705-718, src/dobot.py:582-595
  const Circle: OpSpec := OpSpec("Circle", [ParamSpec("P1", None), ParamSpec("P2", None), ParamSpec("count", None), ParamSpec("_user", Some(Null)), ParamSpec("_tool", Some(Null)), ParamSpec("_a", Some(Null)), ParamSpec("_v", Some(Null)), ParamSpec("_speed", Some(Null)), ParamSpec("_cp", Some(Null)), ParamSpec("_r", Some(Null))])
  // service/dobot.py:721-733, src/dobot.py:598-610
  const ServoJ: OpSpec := OpSpec("ServoJ", [ParamSpec("J1", None), ParamSpec("J2", None), ParamSpec("J3", None), ParamSpec("J4", None), ParamSpec("J5", None), ParamSpec("J6", None), ParamSpec("t", Some(Num(Float(false, 1, 1)))), ParamSpec("aheadtime", Some(Num(Int(50)))), ParamSpec("gain", Some(Num(Int(500))))])
  // service/dobot.py:736-748, src/dobot.py:613-625
  const ServoP: OpSpec := OpSpec("ServoP", [ParamSpec("X", None), ParamSpec("Y", None), ParamSpec("Z", None), ParamSpec("Rx", None), ParamSpec("Ry", None), ParamSpec("Rz", None), ParamSpec("t", Some(Num(Float(false, 1, 1)))), ParamSpec("aheadtime", Some(Num(Int(50)))), ParamSpec("gain", Some(Num(Int(500))))])
  // service/dobot.py:751-752, src/dobot.py:628-629
  const MoveJog: OpSpec := OpSpec("MoveJog", [ParamSpec("axisID", Some(Null)), ParamSpec("_coordType", Some(Num(Int(0)))), ParamSpec("_user", Some(Num(Int(0)))), ParamSpec("_tool", Some(Num(Int(0))))])
  // service/dobot.py:755-764, src/dobot.py:632-641
  const RunTo: OpSpec := OpSpec("RunTo", [ParamSpec("P", None), ParamSpec("moveType", None), ParamSpec("_user", Some(Null)), ParamSpec("_tool", Some(Null)), ParamSpec("_a", Some(Null)), ParamSpec("_v", Some(Null))])
  // service/dobot.py:767-768, src/dobot.py:644-645
  const GetStartPose: OpSpec := OpSpec("GetStartPose", [ParamSpec("traceName", None)])
  // service/dobot.py:771-781, src/dobot.py:648-658
  const StartPath: OpSpec := OpSpec("StartPath", [ParamSpec("traceName", None), ParamSpec("isConst", None), ParamSpec("multi", None), ParamSpec("_sample", Some(Num(Int(50)))), ParamSpec("_freq", Some(Num(Float(false, 2, 1)))), ParamSpec("_user", Some(Num(Int(0)))), ParamSpec("_tool", Some(Num(Int(0))))])
  // service/dobot.py:784-798, src/dobot.py:661-675
  const RelMovJTool: OpSpec := OpSpec("RelMovJTool", [ParamSpec("offsetX", None), ParamSpec("offsetY", None), ParamSpec("offsetZ", None), ParamSpec("offsetRx", None), ParamSpec("offsetRy", None), ParamSpec("offsetRz", None), ParamSpec("_user", Some(Null)), ParamSpec("_tool", Some(Null)), ParamSpec("_a", Some(Null)), ParamSpec("_v", Some(Null)), ParamSpec("_cp", Some(Null))])
  // service/dobot.py:801-817, src/dobot.py:678-694
  const RelMovLTool: OpSpec := OpSpec("RelMovLTool", [ParamSpec("offsetX", None), ParamSpec("offsetY", None), ParamSpec("offsetZ", None), ParamSpec("offsetRx", None), ParamSpec("offsetRy", None), ParamSpec("offsetRz", None), ParamSpec("_user", Some(Null)), ParamSpec("_tool", Some(Null)), ParamSpec("_a", Some(Null)), ParamSpec("_v", Some(Null)), ParamSpec("_speed", Some(Null)), ParamSpec("_cp", Some(Null)), ParamSpec("_r", Some(Null))])
  // service/dobot.py:820-834, src/dobot.py:697-711
  const RelMovJUser: OpSpec := OpSpec("RelMovJUser", [ParamSpec("offsetX", None), ParamSpec("offsetY", None), ParamSpec("offsetZ", None), ParamSpec("offsetRx", None), ParamSpec("offsetRy", None), ParamSpec("offsetRz", None), ParamSpec("_user", Some(Null)), ParamSpec("_tool", Some(Null)), ParamSpec("_a", Some(Null)), ParamSpec("_v", Some(Null)), ParamSpec("_cp", Some(Null))])
  // service/dobot.py:837-853, src/dobot.py:714-730
  const RelMovLUser: OpSpec := OpSpec("RelMovLUser", [ParamSpec("offsetX", None), ParamSpec("offsetY", None), ParamSpec("offsetZ", None), ParamSpec("offsetRx", None), ParamSpec("offsetRy", None), ParamSpec("offsetRz", None), ParamSpec("_user", Some(Null)), ParamSpec("_tool", Some(Null)), ParamSpec("_a", Some(Null)), ParamSpec("_v", Some(Null)), ParamSpec("_speed", Some(Null)), ParamSpec("_cp", Some(Null)), ParamSpec("_r", Some(Null))])
  // service/dobot.py:856-870, src/dobot.py:733-747
  const RelJointMovJ: OpSpec := OpSpec("RelJointMovJ", [ParamSpec("offset1", None), ParamSpec("offset2", None), ParamSpec("offset3", None), ParamSpec("offset4", None), ParamSpec("offset5", None), ParamSpec("offset6", None), ParamSpec("_user", Some(Null)), ParamSpec("_tool", Some(Null)), ParamSpec("_a", Some(Null)), ParamSpec("_v", Some(Null)), ParamSpec("_cp", Some(Null))])
  // service/dobot.py:873-874, src/dobot.py:750-751
  const RelPointTool: OpSpec := OpSpec("RelPointTool", [ParamSpec("P", None), ParamSpec("offset", None)])
  // service/dobot.py:877-878, src/dobot.py:754-755
  const RelPointUser: OpSpec := OpSpec("RelPointUser", [ParamSpec("P", None), ParamSpec("offset", None)])
  // service/dobot.py:881-882, src/dobot.py:758-759
  const RelJoint: OpSpec := OpSpec("RelJoint", [ParamSpec("J1", None), ParamSpec("J2", None), ParamSpec("J3", None), ParamSpec("J4", None), ParamSpec("J5", None), ParamSpec("J6", None), ParamSpec("offset", None)])
  // service/dobot.py:885-886, src/dobot.py:762-763
  const GetCurrentCommandID: OpSpec := OpSpec("GetCurrentCommandID", [])
  // service/dobot.py:893-894, src/dobot.py:770-771
  const SetResumeOffset: OpSpec := OpSpec("SetResumeOffset", [ParamSpec("distance", None)])
  // service/dobot.py:897-898, src/dobot.py:774-775
  const PathRecovery: OpSpec := OpSpec("PathRecovery", [])
  // service/dobot.py:901-902, src/dobot.py:778-779
  const PathRecoveryStop: OpSpec := OpSpec("PathRecoveryStop", [])
  // service/dobot.py:905-906, src/dobot.py:782-783
  const PathRecoveryStatus: OpSpec := OpSpec("PathRecoveryStatus", [])
  // service/dobot.py:913-914, src/dobot.py:790-791
  const LogExportUSB: OpSpec := OpSpec("LogExportUSB", [ParamSpec("range", None)])
  // service/dobot.py:917-918, src/dobot.py:794-795
  const GetExportStatus: OpSpec := OpSpec("GetExportStatus", [])
  // service/dobot.py:925-926, src/dobot.py:802-803
  const EnableFTSensor: OpSpec := OpSpec("EnableFTSensor", [ParamSpec("status", None)])
  // service/dobot.py:929-930, src/dobot.py:806-807
  const SixForceHome: OpSpec := OpSpec("SixForceHome", [])
  // service/dobot.py:933-934, src/dobot.py:810-811
  const GetForce: OpSpec := OpSpec("GetForce", [ParamSpec("tool", Some(Num(Int(0))))])
  // service/dobot.py:937-938, src/dobot.py:814-815
  const ForceDriveMode: OpSpec := OpSpec("ForceDriveMode", [ParamSpec("control", None), ParamSpec("_user", Some(Num(Int(0))))])
  // service/dobot.py:941-942, src/dobot.py:818-819
  const ForceDriveSpped: OpSpec := OpSpec("ForceDriveSpped", [ParamSpec("speed", None)])
  // service/dobot.py:945-948, src/dobot.py:822-825
  const FCForceMode: OpSpec := OpSpec("FCForceMode", [ParamSpec("control", None), ParamSpec("force", None), ParamSpec("_reference", Some(Num(Int(0)))), ParamSpec("_user", Some(Num(Int(0)))), ParamSpec("_tool", Some(Num(Int(0))))])
  // service/dobot.py:951-952, src/dobot.py:828-829
  const FCSetDeviation: OpSpec := OpSpec("FCSetDeviation", [ParamSpec("deviation", None), ParamSpec("controltype", Some(Num(Int(0))))])
  // service/dobot.py:955-958, src/dobot.py:832-835
  const FCSetForceLimit: OpSpec := OpSpec("FCSetForceLimit", [ParamSpec("x", Some(Num(Int(500)))), ParamSpec("y", Some(Num(Int(500)))), ParamSpec("z", Some(Num(Int(500)))), ParamSpec("rx", Some(Num(Int(50)))), ParamSpec("ry", Some(Num(Int(50)))), ParamSpec("rz", Some(Num(Int(50))))])
  // service/dobot.py:961-964, src/dobot.py:838-841
  const FCSetMass: OpSpec := OpSpec("FCSetMass", [ParamSpec("x", Some(Num(Int(20)))), ParamSpec("y", Some(Num(Int(20)))), ParamSpec("z", Some(Num(Int(20)))), ParamSpec("rx", Some(Num(Float(false, 5, 1)))), ParamSpec("ry", Some(Num(Float(false, 5, 1)))), ParamSpec("rz", Some(Num(Float(false, 5, 1))))])
  // service/dobot.py:967-970, src/dobot.py:844-847
  const FCSetDamping: OpSpec := OpSpec("FCSetDamping", [ParamSpec("x", Some(Num(Int(50)))), ParamSpec("y", Some(Num(Int(50)))), ParamSpec("z", Some(Num(Int(50)))), ParamSpec("rx", Some(Num(Int(20)))), ParamSpec("ry", Some(Num(Int(20)))), ParamSpec("rz", Some(Num(Int(20))))])
  // service/dobot.py:973-974, src/dobot.py:850-851
  const FCOff: OpSpec := OpSpec("FCOff", [])
  // service/dobot.py:977-980, src/dobot.py:854-857
  const FCSetForceSpeedLimit: OpSpec := OpSpec("FCSetForceSpeedLimit", [ParamSpec("x", Some(Num(Int(20)))), ParamSpec("y", Some(Num(Int(20)))), ParamSpec("z", Some(Num(Int(20)))), ParamSpec("rx", Some(Num(Int(20)))), ParamSpec("ry", Some(Num(Int(20)))), ParamSpec("rz", Some(Num(Int(20))))])
  // service/dobot.py:983-984, src/dobot.py:860-861
  const FCSetForce: OpSpec := OpSpec("FCSetForce", [ParamSpec("x", None), ParamSpec("y", None), ParamSpec("z", None), ParamSpec("rx", None), ParamSpec("ry", None), ParamSpec("rz", None)])

  /** Every stub, in declaration order. */
  const Stubs: seq<OpSpec> := [
    RequestControl, PowerON, EnableRobot, DisableRobot, ClearError, RunScript, Stop, Pause,
    Continue, EmergencyStop, BrakeControl, StartDrag, StopDrag, SpeedFactor, User, SetUser,
    CalcUser, Tool, SetTool, CalcTool, SetPayload, AccJ, AccL, VelJ,
    VelL, CP, SetCollisionLevel, SetBackDistance, SetPostCollisionMode, DragSensitivity, EnableSafeSkin, SetSafeSkin,
    SetSafeWallEnable, SetWorkZoneEnable, RobotMode, PositiveKin, InverseKin, GetAngle, GetPose, GetErrorID,
    Create1DTray, Create2DTray, Create3DTray, GetTrayPoint, DO, DOInstant, GetDO, DOGroup,
    GetDOGroup, ToolDO, ToolDOInstant, GetToolDO, AO, AOInstant, GetAO, DI,
    DIGroup, ToolDI, AI, ToolAI, SetTool485, SetToolPower, SetToolMode, ModbusCreate,
    ModbusRTUCreate, ModbusClose, GetInBits, GetInRegs, GetCoils, SetCoils, GetHoldRegs, setHoldRegs,
    GetInputBool, GetInputInt, GetInputFloat, GetOutputBool, GetOutputInt, GetOutputFloat, SetOutputBool, SetOutputInt,
    SetOutputFloat, MovJ, MovL, MovLIO, MovJIO, Arc, Circle, ServoJ,
    ServoP, MoveJog, RunTo, GetStartPose, StartPath, RelMovJTool, RelMovLTool, RelMovJUser,
    RelMovLUser, RelJointMovJ, RelPointTool, RelPointUser, RelJoint, GetCurrentCommandID, SetResumeOffset, PathRecovery,
    PathRecoveryStop, PathRecoveryStatus, LogExportUSB, GetExportStatus, EnableFTSensor, SixForceHome, GetForce, ForceDriveMode,
    ForceDriveSpped, FCForceMode, FCSetDeviation, FCSetForceLimit, FCSetMass, FCSetDamping, FCOff, FCSetForceSpeedLimit,
    FCSetForce
  ]

  // ---------------------------------------------------------------------------------------------
  // Two encodings, worked through

  /** `AccJ()` binds the default 100. */
  lemma AccJBinds()
    ensures Bind(AccJ, [], map[]) == Ok([Num(Int(100))])
  {
    BindPositional(AccJ, []);
    var b := Bind(AccJ, [], map[]).value;
    assert |b| == 1 && b[0] == Num(Int(100));
    assert b == [Num(Int(100))];
  }

  /** ... and is sent as `AccJ(100)`. */
  lemma AccJText()
    ensures Encode(AccJ, [Num(Int(100))]) == "AccJ(100)"
  {
  }

  /** `EnableRobot(0.2, 0, 0, 0, 1)` binds its five arguments positionally ... */
  lemma EnableRobotBinds(args: seq<Value>)
    requires args == [Num(Float(false, 2, 1)), Num(Int(0)), Num(Int(0)), Num(Int(0)), Num(Int(1))]
    ensures Bind(EnableRobot, args, map[]) == Ok(args)
  {
    BindPositional(EnableRobot, args);
    var b := Bind(EnableRobot, args, map[]).value;
    assert b == b[..|args|];
  }

  /** `str(0.2)` is `0.2`. */
  lemma TwoTenthsText()
    ensures RenderNumber(Float(false, 2, 1)) == "0.2"
  {
  }

  /** The five arguments are rendered in order ... */
  lemma EnableRobotArgs(args: seq<Value>)
    requires args == [Num(Float(false, 2, 1)), Num(Int(0)), Num(Int(0)), Num(Int(0)), Num(Int(1))]
    ensures RenderArgs(EnableRobot.params, args) == ["0.2", "0", "0", "0", "1"]
  {
    TwoTenthsText();
    var ps := EnableRobot.params;
    assert RenderFrom(ps, args, 4) == ["1"];
    assert RenderFrom(ps, args, 3) == ["0", "1"];
    assert RenderFrom(ps, args, 2) == ["0", "0", "1"];
    assert RenderFrom(ps, args, 1) == ["0", "0", "0", "1"];
  }

  /** ... and `EnableRobot(0.2, 0, 0, 0, 1)` is sent as `EnableRobot(0.2,0,0,0,1)`. */
  lemma EnableRobotText(args: seq<Value>)
    requires args == [Num(Float(false, 2, 1)), Num(Int(0)), Num(Int(0)), Num(Int(0)), Num(Int(1))]
    ensures Encode(EnableRobot, args) == "EnableRobot(0.2,0,0,0,1)"
  {
    EnableRobotArgs(args);
    EnableRobotJoined();
    assert Encode(EnableRobot, args) == EnableRobot.name + "(" + "0.2,0,0,0,1" + ")";
  }

  lemma EnableRobotJoined()
    ensures Join(["0.2", "0", "0", "0", "1"], ',') == "0.2,0,0,0,1"
  {
  }
}
